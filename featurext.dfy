/** The index extraction driver: three normalised-difference bands for the clearest scenes of a
    year, and the files they are written to. Pixels are reals, with `None` standing for NaN. */
module FeatureExt {
  import opened Wrappers
  import opened Seqs
  import opened Dicts
  import opened FileManager
  import opened BandNames
  import opened QualityMask
  import opened Landsatimage
  import opened L2SPSeries

  // ---------------------------------------------------------------------------
  // Pixel arithmetic

  /** A float32 pixel; `None` is NaN, the no-data value. */
  type Pixel = Option<real>

  /** What `_ndi` writes over a zero denominator. */
  const Epsilon: real := 0.00000001

  /** `b[b == 0] = nan` on one pixel. */
  function ZeroToNoData(p: Pixel): Pixel {
    if p == Some(0.0) then None else p
  }

  /** `b1 + b2` on one pixel; NaN spreads. */
  function Add(a: Pixel, b: Pixel): Pixel {
    if a.Some? && b.Some? then Some(a.value + b.value) else None
  }

  /** `b1 - b2` on one pixel; NaN spreads. */
  function Sub(a: Pixel, b: Pixel): Pixel {
    if a.Some? && b.Some? then Some(a.value - b.value) else None
  }

  /** `denom[denom == 0] = 1e-8` on one pixel. */
  function NonZero(d: Pixel): (r: Pixel)
    ensures r != Some(0.0)
  {
    if d == Some(0.0) then Some(Epsilon) else d
  }

  /** `nom / denom` on one pixel whose denominator is not zero; NaN spreads. */
  function Quotient(n: Pixel, d: Pixel): Pixel
    requires d != Some(0.0)
  {
    if n.Some? && d.Some? then Some(n.value / d.value) else None
  }

  /** `index[index > 1] = 1` on one pixel; NaN compares false and stays. */
  function ClipAbove(p: Pixel): Pixel {
    if p.Some? && p.value > 1.0 then Some(1.0) else p
  }

  /** `index[index < -1] = -1` on one pixel. */
  function ClipBelow(p: Pixel): Pixel {
    if p.Some? && p.value < -1.0 then Some(-1.0) else p
  }

  /** Both clipping steps, in the order the source applies them. */
  function Clamp(p: Pixel): Pixel {
    ClipBelow(ClipAbove(p))
  }

  /** `_ndi(b1, b2)` on one pixel. */
  function NdiPixel(a: Pixel, b: Pixel): Pixel {
    Clamp(Quotient(Sub(a, b), NonZero(Add(a, b))))
  }

  /** Clamping keeps no-data, lands in [-1, 1], leaves values already there alone, and so
      changes nothing the second time. */
  lemma ClampSpec(p: Pixel)
    ensures Clamp(p).Some? <==> p.Some?
    ensures Clamp(p).Some? ==> -1.0 <= Clamp(p).value <= 1.0
    ensures p.Some? && -1.0 <= p.value <= 1.0 ==> Clamp(p) == p
    ensures Clamp(Clamp(p)) == Clamp(p)
  {
  }

  /** The index of two pixels is no-data exactly when one of them is, and otherwise in [-1, 1]. */
  lemma NdiRange(a: Pixel, b: Pixel)
    ensures NdiPixel(a, b).Some? <==> a.Some? && b.Some?
    ensures NdiPixel(a, b).Some? ==> -1.0 <= NdiPixel(a, b).value <= 1.0
  {
    ClampSpec(Quotient(Sub(a, b), NonZero(Add(a, b))));
  }

  /** A zero pixel in either band gives a no-data index once zeros are masked. */
  lemma ZeroGivesNoData(b: Pixel)
    ensures NdiPixel(ZeroToNoData(Some(0.0)), b) == None
    ensures NdiPixel(b, ZeroToNoData(Some(0.0))) == None
  {
    NdiRange(None, b);
    NdiRange(b, None);
  }

  /** For non-negative reflectances with a positive sum, the index is the textbook
      `(a - b) / (a + b)`, which never needs clamping. */
  lemma NdiOfReflectances(x: real, y: real)
    requires x >= 0.0 && y >= 0.0 && x + y > 0.0
    ensures NdiPixel(Some(x), Some(y)) == Some((x - y) / (x + y))
    ensures -1.0 <= (x - y) / (x + y) <= 1.0
  {
    var q := (x - y) / (x + y);
    assert q * (x + y) == x - y;
    QuotientBound(x - y, x + y);
    ClampSpec(Some(q));
  }

  /** |n| <= d with d > 0 puts n / d in [-1, 1]. */
  lemma QuotientBound(n: real, d: real)
    requires d > 0.0 && -d <= n <= d
    ensures -1.0 <= n / d <= 1.0
  {
    var q := n / d;
    assert q * d == n;
  }

  /** Negating the numerator negates the quotient. */
  lemma DivNegate(n: real, d: real)
    requires d != 0.0
    ensures (0.0 - n) / d == 0.0 - n / d
  {
    var q := n / d;
    assert q * d == n;
    var p := (0.0 - n) / d;
    assert p * d == 0.0 - n;
    assert (p + q) * d == 0.0;
  }

  /** Swapping the bands negates the index. */
  lemma NdiAntisymmetric(x: real, y: real)
    ensures NdiPixel(Some(y), Some(x)) == Some(0.0 - NdiPixel(Some(x), Some(y)).value)
  {
    var d := NonZero(Add(Some(x), Some(y))).value;
    assert NonZero(Add(Some(y), Some(x))).value == d;
    DivNegate(x - y, d);
  }

  // ---------------------------------------------------------------------------
  // Array passes

  /** `b[b == 0] = np.nan`, in place. */
  method MaskZeros(a: array<Pixel>)
    modifies a
    ensures forall i :: 0 <= i < a.Length ==> a[i] == ZeroToNoData(old(a[i]))
  {
    var i := 0;
    while i < a.Length
      invariant 0 <= i <= a.Length
      invariant forall j :: 0 <= j < i ==> a[j] == ZeroToNoData(old(a[j]))
      invariant forall j :: i <= j < a.Length ==> a[j] == old(a[j])
    {
      if a[i] == Some(0.0) {
        a[i] := None;
      }
      i := i + 1;
    }
  }

  /** `denom[denom == 0] = 1e-8`, in place. */
  method ReplaceZeros(a: array<Pixel>)
    modifies a
    ensures forall i :: 0 <= i < a.Length ==> a[i] == NonZero(old(a[i]))
  {
    var i := 0;
    while i < a.Length
      invariant 0 <= i <= a.Length
      invariant forall j :: 0 <= j < i ==> a[j] == NonZero(old(a[j]))
      invariant forall j :: i <= j < a.Length ==> a[j] == old(a[j])
    {
      if a[i] == Some(0.0) {
        a[i] := Some(Epsilon);
      }
      i := i + 1;
    }
  }

  /** `x[x > 1] = 1` followed by `x[x < -1] = -1`, in place. */
  method ClampAll(a: array<Pixel>)
    modifies a
    ensures forall i :: 0 <= i < a.Length ==> a[i] == Clamp(old(a[i]))
  {
    var i := 0;
    while i < a.Length
      invariant 0 <= i <= a.Length
      invariant forall j :: 0 <= j < i ==> a[j] == ClipAbove(old(a[j]))
      invariant forall j :: i <= j < a.Length ==> a[j] == old(a[j])
    {
      if a[i].Some? && a[i].value > 1.0 {
        a[i] := Some(1.0);
      }
      i := i + 1;
    }
    i := 0;
    while i < a.Length
      invariant 0 <= i <= a.Length
      invariant forall j :: 0 <= j < i ==> a[j] == Clamp(old(a[j]))
      invariant forall j :: i <= j < a.Length ==> a[j] == ClipAbove(old(a[j]))
    {
      if a[i].Some? && a[i].value < -1.0 {
        a[i] := Some(-1.0);
      }
      i := i + 1;
    }
  }

  /** `nom / denom` over arrays whose denominators hold no zero. */
  method Divide(nom: array<Pixel>, denom: array<Pixel>) returns (q: array<Pixel>)
    requires nom.Length == denom.Length
    requires forall i :: 0 <= i < denom.Length ==> denom[i] != Some(0.0)
    ensures fresh(q) && q.Length == nom.Length
    ensures forall i :: 0 <= i < q.Length ==> q[i] == Quotient(nom[i], denom[i])
  {
    q := new Pixel[nom.Length];
    var i := 0;
    while i < nom.Length
      invariant 0 <= i <= nom.Length
      invariant forall j :: 0 <= j < i ==> q[j] == Quotient(nom[j], denom[j])
    {
      q[i] := Quotient(nom[i], denom[i]);
      i := i + 1;
    }
  }

  /** `_ndi(b1, b2)`: a new array holding the clamped normalised difference of each pixel pair. */
  method Ndi(b1: array<Pixel>, b2: array<Pixel>) returns (index: array<Pixel>)
    requires b1.Length == b2.Length
    ensures fresh(index) && index.Length == b1.Length
    ensures forall i :: 0 <= i < index.Length ==> index[i] == NdiPixel(b1[i], b2[i])
  {
    var n := b1.Length;
    var denom := new Pixel[n](i reads b1, b2 => if 0 <= i < n then Add(b1[i], b2[i]) else None);
    var nom := new Pixel[n](i reads b1, b2 => if 0 <= i < n then Sub(b1[i], b2[i]) else None);
    ReplaceZeros(denom);
    index := Divide(nom, denom);
    ClampAll(index);
  }

  // ---------------------------------------------------------------------------
  // One scene

  /** What extraction reads of a scene: its metadata, feature paths and pixel counts. */
  datatype SceneView = SceneView(
    sensor: Option<string>, tile: Option<string>, date: Option<string>, time: Option<string>,
    paths: seq<(Option<string>, string)>, stats: Option<PixelStats>)

  function ViewOf(img: LandsatImg): SceneView
    reads img
  {
    SceneView(img.sensor, img.tile, img.date, img.time, img.featurePaths, img.stats)
  }

  function Views(ts: seq<LandsatImg>): (r: seq<SceneView>)
    reads ts
    ensures |r| == |ts| && forall i :: 0 <= i < |ts| ==> r[i] == ViewOf(ts[i])
    decreases |ts|
  {
    if |ts| == 0 then [] else [ViewOf(ts[0])] + Views(ts[1..])
  }

  /** `img.feature(band)` for a band name: the raster filed under the band's translated name.
      The translation needs the sensor; a band with no stored path raises KeyError and a path
      the raster store does not hold raises IOError. */
  function BandRaster(v: SceneView, band: string, rasters: map<string, seq<real>>): (r: Result<seq<real>, PyError>)
    ensures v.sensor.None? ==> r == Err(KeyError)
    ensures r.Ok? ==> var p := Get(v.paths, Translate(v.sensor.value, band));
      p.Some? && p.value in rasters && r.value == rasters[p.value]
  {
    if v.sensor.None? then Err(KeyError)
    else match Get(v.paths, Translate(v.sensor.value, band))
      case None => Err(KeyError)
      case Some(p) => if p in rasters then Ok(rasters[p]) else Err(IOError)
  }

  /** A band read as float32 with its zeros masked. */
  function Masked(b: seq<real>): (r: seq<Pixel>)
    ensures |r| == |b| && forall i :: 0 <= i < |b| ==> r[i] == ZeroToNoData(Some(b[i]))
  {
    seq(|b|, i requires 0 <= i < |b| => ZeroToNoData(Some(b[i])))
  }

  /** `_ndi` of two masked bands of the same size. */
  function NdiBand(a: seq<real>, b: seq<real>): (r: seq<Pixel>)
    requires |a| == |b|
    ensures |r| == |a|
  {
    seq(|a|, i requires 0 <= i < |a| => NdiPixel(ZeroToNoData(Some(a[i])), ZeroToNoData(Some(b[i]))))
  }

  /** A zero in either band, and only that, makes a pixel of their index no-data. */
  lemma NdiBandNoData(a: seq<real>, b: seq<real>, i: int)
    requires |a| == |b| && 0 <= i < |a|
    ensures NdiBand(a, b)[i].None? <==> a[i] == 0.0 || b[i] == 0.0
  {
    NdiRange(ZeroToNoData(Some(a[i])), ZeroToNoData(Some(b[i])));
  }

  /** Every pixel of an index band is no-data or in [-1, 1]. */
  lemma NdiBandRange(a: seq<real>, b: seq<real>)
    requires |a| == |b|
    ensures forall i :: 0 <= i < |a| ==> NdiBand(a, b)[i].None? || -1.0 <= NdiBand(a, b)[i].value <= 1.0
  {
    forall i | 0 <= i < |a|
      ensures NdiBand(a, b)[i].None? || -1.0 <= NdiBand(a, b)[i].value <= 1.0
    {
      NdiRange(ZeroToNoData(Some(a[i])), ZeroToNoData(Some(b[i])));
    }
  }

  /** The bands `_feature` reads, in the order it reads them. */
  const BandOrder: seq<string> := ["BLUE", "GREEN", "RED", "NIR", "SWIR1", "SWIR2"]

  /** The values of `rs` when every one is `Ok`, else the first error among them. */
  function Collect<T>(rs: seq<Result<T, PyError>>): Result<seq<T>, PyError>
    decreases |rs|
  {
    if |rs| == 0 then Ok([])
    else match rs[0]
      case Err(e) => Err(e)
      case Ok(x) =>
        match Collect(rs[1..])
        case Err(e) => Err(e)
        case Ok(rest) => Ok([x] + rest)
  }

  /** Collecting succeeds exactly when every result is `Ok`, and then keeps each value in place. */
  lemma {:induction false} CollectOk<T>(rs: seq<Result<T, PyError>>)
    ensures Collect(rs).Ok? <==> forall j :: 0 <= j < |rs| ==> rs[j].Ok?
    ensures Collect(rs).Ok? ==> |Collect(rs).value| == |rs| && forall j :: 0 <= j < |rs| ==> rs[j] == Ok(Collect(rs).value[j])
    decreases |rs|
  {
    if |rs| > 0 {
      CollectOk(rs[1..]);
      if rs[0].Ok? && Collect(rs[1..]).Ok? {
        var r := Collect(rs).value;
        assert forall j :: 1 <= j < |rs| ==> rs[j] == rs[1..][j - 1] && r[j] == r[1..][j - 1];
      } else if rs[0].Ok? {
        var j :| 0 <= j < |rs[1..]| && rs[1..][j].Err?;
        assert rs[j + 1].Err?;
      }
    }
  }

  /** When the first k results are `Ok` and result k is not, collecting fails with its error. */
  lemma {:induction false} CollectFirstError<T>(rs: seq<Result<T, PyError>>, k: int)
    requires 0 <= k < |rs| && rs[k].Err?
    requires forall j :: 0 <= j < k ==> rs[j].Ok?
    ensures Collect(rs) == Err(rs[k].error)
    decreases |rs|
  {
    if k > 0 {
      assert rs[0].Ok?;
      assert forall j :: 0 <= j < k - 1 ==> rs[1..][j] == rs[j + 1];
      CollectFirstError(rs[1..], k - 1);
    }
  }

  /** The outcome of reading each of `names`. */
  function BandReads(v: SceneView, names: seq<string>, rasters: map<string, seq<real>>): (r: seq<Result<seq<real>, PyError>>)
    ensures |r| == |names| && forall j :: 0 <= j < |names| ==> r[j] == BandRaster(v, names[j], rasters)
  {
    seq(|names|, j requires 0 <= j < |names| => BandRaster(v, names[j], rasters))
  }

  /** The rasters of `names`, read in order; the first band that cannot be read stops the
      reading with its error (by `CollectOk` and `CollectFirstError`). */
  function ReadBands(v: SceneView, names: seq<string>, rasters: map<string, seq<real>>): Result<seq<seq<real>>, PyError> {
    Collect(BandReads(v, names, rasters))
  }

  /** The three index bands of a scene of `size` pixels from its six raw bands, in
      `BandOrder`: `ndi(NIR, SWIR1)`, `ndi(NIR, RED)` and `ndi(SWIR2, BLUE)`; bands whose sizes
      do not agree raise ValueError when combined. */
  function IndicesOf(raw: seq<seq<real>>, size: nat): Result<seq<seq<Pixel>>, PyError>
    requires |raw| == 6
  {
    if |raw[3]| == |raw[4]| == |raw[2]| == size && |raw[5]| == |raw[0]| == size then
      Ok([NdiBand(raw[3], raw[4]), NdiBand(raw[3], raw[2]), NdiBand(raw[5], raw[0])])
    else Err(ValueError)
  }

  /** The three bands `_feature` builds for one scene: the first unreadable band's error, or the
      indices of the six bands read. */
  function Indices(v: SceneView, rasters: map<string, seq<real>>, size: nat): Result<seq<seq<Pixel>>, PyError> {
    match ReadBands(v, BandOrder, rasters)
    case Err(e) => Err(e)
    case Ok(raw) => if |raw| == 6 then IndicesOf(raw, size) else Err(IndexError)
  }

  /** The index bands of a scene: three of them, one pixel per input pixel, each no-data or in
      [-1, 1]. */
  lemma IndicesRange(v: SceneView, rasters: map<string, seq<real>>, size: nat)
    requires Indices(v, rasters, size).Ok?
    ensures var bands: seq<seq<Pixel>> := Indices(v, rasters, size).value;
      |bands| == 3 &&
      (forall k :: 0 <= k < 3 ==> |bands[k]| == size) &&
      forall k, i :: 0 <= k < 3 && 0 <= i < |bands[k]| ==>
        bands[k][i].None? || -1.0 <= bands[k][i].value <= 1.0
  {
    IndicesOfRange(ReadBands(v, BandOrder, rasters).value, size);
  }

  /** The indices of six raw bands exist exactly when the five bands they use (all but GREEN)
      have the scene's size, and ValueError otherwise; then they are three bands of that size,
      each pixel no-data or in [-1, 1]. */
  lemma IndicesOfRange(raw: seq<seq<real>>, size: nat)
    requires |raw| == 6
    ensures IndicesOf(raw, size).Ok? <==> forall j :: 0 <= j < 6 && j != 1 ==> |raw[j]| == size
    ensures IndicesOf(raw, size).Err? ==> IndicesOf(raw, size).error == ValueError
    ensures IndicesOf(raw, size).Ok? ==> var bands: seq<seq<Pixel>> := IndicesOf(raw, size).value;
      |bands| == 3 &&
      (forall k :: 0 <= k < 3 ==> |bands[k]| == size) &&
      forall k, i :: 0 <= k < 3 && 0 <= i < |bands[k]| ==>
        bands[k][i].None? || -1.0 <= bands[k][i].value <= 1.0
  {
    if IndicesOf(raw, size).Ok? {
      NdiBandRange(raw[3], raw[4]);
      NdiBandRange(raw[3], raw[2]);
      NdiBandRange(raw[5], raw[0]);
    }
  }

  /** The values of results that are all `Ok`. */
  function Values<T>(rs: seq<Result<T, PyError>>): (r: seq<T>)
    requires forall j :: 0 <= j < |rs| ==> rs[j].Ok?
    ensures |r| == |rs| && forall j :: 0 <= j < |rs| ==> rs[j] == Ok(r[j])
  {
    seq(|rs|, j requires 0 <= j < |rs| => rs[j].value)
  }

  /** A scene whose six bands can all be read gets the indices of those six rasters. */
  lemma IndicesFromBands(v: SceneView, rasters: map<string, seq<real>>, size: nat)
    requires forall j :: 0 <= j < 6 ==> BandRaster(v, BandOrder[j], rasters).Ok?
    ensures Indices(v, rasters, size) == IndicesOf(Values(BandReads(v, BandOrder, rasters)), size)
  {
    var rs := BandReads(v, BandOrder, rasters);
    CollectOk(rs);
    assert Collect(rs).value == Values(rs);
  }

  /** A scene whose first k bands can be read but not band k fails with band k's error. */
  lemma IndicesBandError(v: SceneView, rasters: map<string, seq<real>>, size: nat, k: int)
    requires 0 <= k < 6 && BandRaster(v, BandOrder[k], rasters).Err?
    requires forall j :: 0 <= j < k ==> BandRaster(v, BandOrder[j], rasters).Ok?
    ensures Indices(v, rasters, size) == Err(BandRaster(v, BandOrder[k], rasters).error)
  {
    CollectFirstError(BandReads(v, BandOrder, rasters), k);
  }

  /** The file name `_feature` writes a scene to: `tile_date`, then `T` and the time when the
      time is set, then `_NDI.tif`; a KeyError while tile or date is unset. */
  function OutputName(v: SceneView): Result<string, PyError> {
    if v.tile.None? || v.date.None? then Err(KeyError)
    else Ok(v.tile.value + "_" + v.date.value + (if v.time.Some? then "T" + v.time.value else "") + "_NDI.tif")
  }

  /** The name starts with `tile_date`; the time follows a `T` when it is set; it ends in
      `_NDI.tif`. */
  lemma OutputNameSpec(v: SceneView)
    ensures OutputName(v).Ok? <==> v.tile.Some? && v.date.Some?
    ensures OutputName(v).Err? ==> OutputName(v).error == KeyError
    ensures OutputName(v).Ok? ==> var n := OutputName(v).value; var stem := v.tile.value + "_" + v.date.value;
      |n| >= |stem| + 8 && n[..|stem|] == stem && n[|n| - 8..] == "_NDI.tif" &&
      (v.time.None? ==> n == stem + "_NDI.tif") &&
      (v.time.Some? ==> n[|stem|..|n| - 8] == "T" + v.time.value)
  {
    if v.tile.Some? && v.date.Some? {
      var stem := v.tile.value + "_" + v.date.value;
      var mid := if v.time.Some? then "T" + v.time.value else "";
      var n := stem + mid + "_NDI.tif";
      assert n[..|stem|] == stem;
      assert n[|n| - 8..] == "_NDI.tif";
      assert n[|stem|..|n| - 8] == mid;
    }
  }

  /** The path every output is georeferenced from: the B04 path of the first chosen scene. */
  function Georef(first: SceneView): Result<string, PyError> {
    match Get(first.paths, Some("B04"))
    case None => Err(KeyError)
    case Some(p) => Ok(p)
  }

  /** One written GeoTIFF: where it goes, its three bands, and the file its georeferencing is
      copied from. */
  datatype Output = Output(path: string, bands: seq<seq<Pixel>>, georef: string)

  /** The output `_feature` writes for one scene, or the first error on the way: the bands, then
      the georeferencing of the first scene, then the name. */
  function SceneOutput(v: SceneView, first: SceneView, rasters: map<string, seq<real>>, size: nat, path: string)
    : Result<Output, PyError>
  {
    match Indices(v, rasters, size)
    case Err(e) => Err(e)
    case Ok(bands) =>
      match Georef(first)
      case Err(e) => Err(e)
      case Ok(g) =>
        match OutputName(v)
        case Err(e) => Err(e)
        case Ok(name) => Ok(Output(Joined([path, name]), bands, g))
  }

  /** The values of `rs` up to its first error, and that error if there is one: what a loop
      that stops at the first exception has produced. */
  function UntilError<T>(rs: seq<Result<T, PyError>>): (r: (seq<T>, Option<PyError>))
    ensures |r.0| <= |rs|
    ensures r.1.None? ==> |r.0| == |rs|
    decreases |rs|
  {
    if |rs| == 0 then ([], None)
    else match rs[0]
      case Err(e) => ([], Some(e))
      case Ok(x) =>
        var rest := UntilError(rs[1..]);
        ([x] + rest.0, rest.1)
  }

  /** Each value kept is the result at its position, and an error is that of the result right
      after the values kept. */
  lemma {:induction false} UntilErrorSpec<T>(rs: seq<Result<T, PyError>>)
    ensures var (xs, _) := UntilError(rs); forall i :: 0 <= i < |xs| ==> rs[i] == Ok(xs[i])
    ensures var (xs, err) := UntilError(rs); err.Some? ==> |xs| < |rs| && rs[|xs|] == Err(err.value)
    decreases |rs|
  {
    if |rs| > 0 && rs[0].Ok? {
      UntilErrorSpec(rs[1..]);
    }
  }

  /** Values that match the first k results, with result k an error or none left, are what
      `UntilError` gives. */
  lemma {:induction false} UntilErrorPrefix<T>(rs: seq<Result<T, PyError>>, xs: seq<T>)
    requires |xs| <= |rs|
    requires forall j :: 0 <= j < |xs| ==> rs[j] == Ok(xs[j])
    requires |xs| < |rs| ==> rs[|xs|].Err?
    ensures UntilError(rs) == (xs, if |xs| == |rs| then None else Some(rs[|xs|].error))
    decreases |rs|
  {
    if |xs| > 0 {
      assert forall j :: 0 <= j < |xs| - 1 ==> rs[1..][j] == rs[j + 1] && xs[1..][j] == xs[j + 1];
      UntilErrorPrefix(rs[1..], xs[1..]);
      assert xs == [xs[0]] + xs[1..];
    }
  }

  /** What writing each chosen scene would give. */
  function SceneOutputs(chosen: seq<SceneView>, first: SceneView, rasters: map<string, seq<real>>, size: nat, path: string)
    : (r: seq<Result<Output, PyError>>)
    ensures |r| == |chosen| && forall i :: 0 <= i < |chosen| ==> r[i] == SceneOutput(chosen[i], first, rasters, size, path)
  {
    seq(|chosen|, i requires 0 <= i < |chosen| => SceneOutput(chosen[i], first, rasters, size, path))
  }

  /** The outputs written for the chosen scenes in order, and the error that stopped the loop, if
      any; files written before the error stay written. */
  function WriteAll(chosen: seq<SceneView>, first: SceneView, rasters: map<string, seq<real>>, size: nat, path: string)
    : (r: (seq<Output>, Option<PyError>))
  {
    UntilError(SceneOutputs(chosen, first, rasters, size, path))
  }

  /** Each output written belongs to the chosen scene at its position; an error comes from the
      scene after the last one written; without one every scene is written. */
  lemma WriteAllSpec(chosen: seq<SceneView>, first: SceneView, rasters: map<string, seq<real>>, size: nat, path: string)
    ensures var (outs, _) := WriteAll(chosen, first, rasters, size, path);
      forall i :: 0 <= i < |outs| ==> SceneOutput(chosen[i], first, rasters, size, path) == Ok(outs[i])
    ensures var (outs, err) := WriteAll(chosen, first, rasters, size, path);
      (err.None? ==> |outs| == |chosen|) &&
      (err.Some? ==> |outs| < |chosen| && SceneOutput(chosen[|outs|], first, rasters, size, path) == Err(err.value))
  {
    UntilErrorSpec(SceneOutputs(chosen, first, rasters, size, path));
  }

  /** Each scene keyed by `InvalidPixNum()`, the first scene without statistics raising KeyError. */
  function InvalidKeyed(vs: seq<SceneView>): (r: Result<seq<(int, SceneView)>, PyError>)
    ensures r.Ok? <==> forall i :: 0 <= i < |vs| ==> vs[i].stats.Some?
    ensures r.Ok? ==> |r.value| == |vs| && forall i :: 0 <= i < |vs| ==> r.value[i] == (vs[i].stats.value.invalid, vs[i])
    decreases |vs|
  {
    if |vs| == 0 then Ok([])
    else if vs[0].stats.None? then Err(KeyError)
    else match InvalidKeyed(vs[1..])
      case Err(e) => Err(e)
      case Ok(rest) => Ok([(vs[0].stats.value.invalid as int, vs[0])] + rest)
  }

  /** `sorted(ts, key=InvalidPixNum)[0:ts_length]`, with `ts_length` read under the key
      `"ts_legth"` and defaulting to the number of scenes. */
  function Chosen(keyed: seq<(int, SceneView)>, tsLegth: Option<int>): seq<SceneView> {
    SliceTo(Items(SortByKey(keyed)), if tsLegth.Some? then tsLegth.value else |keyed|)
  }

  /** The chosen scenes come clearest first, hold the clearest ones, and without a `ts_legth`
      they are all the scenes. */
  lemma ChosenSpec(keyed: seq<(int, SceneView)>, tsLegth: Option<int>)
    ensures var sorted := SortByKey(keyed); var c := Chosen(keyed, tsLegth);
      |c| <= |keyed| && c == Items(sorted)[..|c|] && SortedByKey(sorted) &&
      multiset(Items(sorted)) == multiset(Items(keyed))
    ensures tsLegth.None? ==> multiset(Chosen(keyed, tsLegth)) == multiset(Items(keyed))
    ensures tsLegth.Some? && 0 <= tsLegth.value <= |keyed| ==> |Chosen(keyed, tsLegth)| == tsLegth.value
  {
    SortByKeySpec(keyed);
    SortByKeyItems(keyed);
  }

  /** The clearest-first order: a chosen scene never has more invalid pixels than a later one,
      nor than any scene left out. */
  lemma ChosenClearest(keyed: seq<(int, SceneView)>, tsLegth: Option<int>, i: int, j: int)
    requires 0 <= i < |Chosen(keyed, tsLegth)| && i <= j < |keyed|
    ensures SortByKey(keyed)[i].1 == Chosen(keyed, tsLegth)[i]
    ensures SortByKey(keyed)[i].0 <= SortByKey(keyed)[j].0
  {
    var sorted := SortByKey(keyed);
    var c := Chosen(keyed, tsLegth);
    assert c == Items(sorted)[..|c|];
    assert c[i] == sorted[i].1;
    SortByKeySpec(keyed);
  }

  /** The scenes `_feature` processes: ranked by invalid pixels and cut to `ts_legth`. */
  function Ranked(vs: seq<SceneView>, tsLegth: Option<int>): Result<seq<SceneView>, PyError> {
    match InvalidKeyed(vs)
    case Err(e) => Err(e)
    case Ok(keyed) => Ok(Chosen(keyed, tsLegth))
  }

  /** What `_feature(ts, path)` writes, and the error that stops it: the size comes from the
      first scene's B04 band as given, the scenes are ranked, and every output takes its
      georeferencing from the first ranked scene. */
  function Extraction(vs: seq<SceneView>, path: string, tsLegth: Option<int>, rasters: map<string, seq<real>>)
    : (seq<Output>, Option<PyError>)
  {
    if |vs| == 0 then ([], Some(IndexError))
    else match BandRaster(vs[0], "B04", rasters)
      case Err(e) => ([], Some(e))
      case Ok(b04) =>
        match Ranked(vs, tsLegth)
        case Err(e) => ([], Some(e))
        case Ok(chosen) => if |chosen| == 0 then ([], None) else WriteAll(chosen, chosen[0], rasters, |b04|, path)
  }

  /** A scene's output holds its three index bands of `size` pixels, each pixel no-data or in
      [-1, 1], lies in the output folder under the scene's name, and is georeferenced from the
      first scene's B04 file. */
  lemma SceneOutputSpec(v: SceneView, first: SceneView, rasters: map<string, seq<real>>, size: nat, path: string)
    requires SceneOutput(v, first, rasters, size, path).Ok?
    ensures var o := SceneOutput(v, first, rasters, size, path).value;
      o.georef == Georef(first).value && OutputName(v).Ok? && o.path == Joined([path, OutputName(v).value]) &&
      |o.bands| == 3 && (forall k :: 0 <= k < 3 ==> |o.bands[k]| == size) &&
      forall k, p :: 0 <= k < 3 && 0 <= p < |o.bands[k]| ==> o.bands[k][p].None? || -1.0 <= o.bands[k][p].value <= 1.0
  {
    IndicesRange(v, rasters, size);
  }

  /** When the first scene and the ranking can be read, the outputs are those of the ranked
      scenes in order, all georeferenced from the first of them, and an error comes from the
      scene after the last one written. */
  lemma ExtractionSpec(vs: seq<SceneView>, path: string, tsLegth: Option<int>, rasters: map<string, seq<real>>)
    requires |vs| > 0 && BandRaster(vs[0], "B04", rasters).Ok? && Ranked(vs, tsLegth).Ok?
    requires |Ranked(vs, tsLegth).value| > 0
    ensures var chosen := Ranked(vs, tsLegth).value; var size := |BandRaster(vs[0], "B04", rasters).value|;
      var (outs, err) := Extraction(vs, path, tsLegth, rasters);
      (forall i :: 0 <= i < |outs| ==> SceneOutput(chosen[i], chosen[0], rasters, size, path) == Ok(outs[i])) &&
      (err.None? ==> |outs| == |chosen|) &&
      (err.Some? ==> |outs| < |chosen| && SceneOutput(chosen[|outs|], chosen[0], rasters, size, path) == Err(err.value))
  {
    var chosen := Ranked(vs, tsLegth).value;
    WriteAllSpec(chosen, chosen[0], rasters, |BandRaster(vs[0], "B04", rasters).value|, path);
  }

  /** The ranked scenes are the first of the scenes sorted by invalid pixels, all of them when
      no `ts_legth` is given; a scene without statistics makes ranking fail with KeyError. */
  lemma RankedSpec(vs: seq<SceneView>, tsLegth: Option<int>)
    ensures Ranked(vs, tsLegth).Err? <==> exists i :: 0 <= i < |vs| && vs[i].stats.None?
    ensures Ranked(vs, tsLegth).Err? ==> Ranked(vs, tsLegth).error == KeyError
    ensures Ranked(vs, tsLegth).Ok? ==>
      var c := Ranked(vs, tsLegth).value;
      |c| <= |vs| && multiset(c) <= multiset(vs) &&
      (tsLegth.None? ==> multiset(c) == multiset(vs))
  {
    RankedErrors(vs);
    if Ranked(vs, tsLegth).Ok? {
      var keyed := InvalidKeyed(vs).value;
      var all := Items(SortByKey(keyed));
      var c := Chosen(keyed, tsLegth);
      ChosenSpec(keyed, tsLegth);
      assert Items(keyed) == vs;
      assert all == c + all[|c|..];
      assert multiset(all) == multiset(c) + multiset(all[|c|..]);
    }
  }

  /** The ranked scenes come in ascending order of invalid pixels. */
  lemma RankedOrder(vs: seq<SceneView>, tsLegth: Option<int>, i: int, j: int)
    requires Ranked(vs, tsLegth).Ok? && 0 <= i < j < |Ranked(vs, tsLegth).value|
    ensures var c := Ranked(vs, tsLegth).value;
      c[i].stats.Some? && c[j].stats.Some? && c[i].stats.value.invalid <= c[j].stats.value.invalid
  {
    var keyed := InvalidKeyed(vs).value;
    SortedKeysAreInvalid(keyed);
    ChosenClearest(keyed, tsLegth, i, j);
    ChosenClearest(keyed, tsLegth, j, j);
  }

  /** Ranking fails with KeyError exactly when some scene has no statistics. */
  lemma {:induction false} RankedErrors(vs: seq<SceneView>)
    ensures InvalidKeyed(vs).Err? <==> exists i :: 0 <= i < |vs| && vs[i].stats.None?
    ensures InvalidKeyed(vs).Err? ==> InvalidKeyed(vs).error == KeyError
    decreases |vs|
  {
    if |vs| > 0 && vs[0].stats.Some? {
      RankedErrors(vs[1..]);
      if exists i :: 0 <= i < |vs| && vs[i].stats.None? {
        var i :| 0 <= i < |vs| && vs[i].stats.None?;
        assert vs[1..][i - 1] == vs[i];
      }
    }
  }

  /** After sorting, each pair's key is still its scene's invalid-pixel count. */
  lemma SortedKeysAreInvalid(keyed: seq<(int, SceneView)>)
    requires forall i :: 0 <= i < |keyed| ==> keyed[i].1.stats.Some? && keyed[i].0 == keyed[i].1.stats.value.invalid
    ensures forall i :: 0 <= i < |SortByKey(keyed)| ==>
      SortByKey(keyed)[i].1.stats.Some? && SortByKey(keyed)[i].0 == SortByKey(keyed)[i].1.stats.value.invalid
  {
    var sorted := SortByKey(keyed);
    SortByKeySpec(keyed);
    forall i | 0 <= i < |sorted|
      ensures sorted[i].1.stats.Some? && sorted[i].0 == sorted[i].1.stats.value.invalid
    {
      assert sorted[i] in multiset(sorted);
      assert sorted[i] in multiset(keyed);
      var j :| 0 <= j < |keyed| && keyed[j] == sorted[i];
    }
  }
  // ---------------------------------------------------------------------------
  // Methods

  /** A raster read as float32, with `b[b == 0] = np.nan` applied. */
  method MaskedBand(b: seq<real>) returns (a: array<Pixel>)
    ensures fresh(a) && a.Length == |b|
    ensures forall i :: 0 <= i < |b| ==> a[i] == ZeroToNoData(Some(b[i]))
  {
    a := new Pixel[|b|](i => if 0 <= i < |b| then Some(b[i]) else None);
    MaskZeros(a);
  }

  /** One layer of the stacked feature: `_ndi(b1, b2)`, then the stack's own clipping, which
      changes nothing more. */
  method IndexLayer(b1: array<Pixel>, b2: array<Pixel>) returns (f: array<Pixel>)
    requires b1.Length == b2.Length
    ensures fresh(f) && f.Length == b1.Length
    ensures forall i :: 0 <= i < f.Length ==> f[i] == NdiPixel(b1[i], b2[i])
  {
    f := Ndi(b1, b2);
    ghost var once := f[..];
    ClampAll(f);
    forall i | 0 <= i < f.Length
      ensures f[i] == NdiPixel(b1[i], b2[i])
    {
      ClampSpec(Quotient(Sub(b1[i], b2[i]), NonZero(Add(b1[i], b2[i]))));
    }
  }

  /** The body of `_feature`'s loop for six bands already read: mask the zeros of each band,
      then stack `ndi(NIR, SWIR1)`, `ndi(NIR, RED)` and `ndi(SWIR2, BLUE)`. */
  method IndexStack(raw: seq<seq<real>>, size: nat) returns (r: Result<seq<seq<Pixel>>, PyError>)
    requires |raw| == 6
    ensures r == IndicesOf(raw, size)
  {
    if !(|raw[3]| == |raw[4]| == |raw[2]| == size && |raw[5]| == |raw[0]| == size) {
      return Err(ValueError);
    }
    var b1 := MaskedBand(raw[0]);
    var b3 := MaskedBand(raw[2]);
    var b4 := MaskedBand(raw[3]);
    var b5 := MaskedBand(raw[4]);
    var b6 := MaskedBand(raw[5]);
    var f0 := IndexLayer(b4, b5);
    var f1 := IndexLayer(b4, b3);
    var f2 := IndexLayer(b6, b1);
    assert f0[..] == NdiBand(raw[3], raw[4]);
    assert f1[..] == NdiBand(raw[3], raw[2]);
    assert f2[..] == NdiBand(raw[5], raw[0]);
    r := Ok([f0[..], f1[..], f2[..]]);
  }

  /** The bands `_feature` computes for one scene of `size` pixels, or the error that stops it. */
  method SceneIndices(v: SceneView, rasters: map<string, seq<real>>, size: nat) returns (r: Result<seq<seq<Pixel>>, PyError>)
    ensures r == Indices(v, rasters, size)
  {
    var raw := ReadBands(v, BandOrder, rasters);
    if raw.Err? {
      return Err(raw.error);
    }
    CollectOk(BandReads(v, BandOrder, rasters));
    r := IndexStack(raw.value, size);
  }

  /** One pass of `_feature`'s loop: compute the bands, read the georeferencing of the first
      ranked scene, name the file and write it. */
  method WriteScene(chosen: seq<SceneView>, i: int, rasters: map<string, seq<real>>, size: nat, path: string)
    returns (r: Result<Output, PyError>)
    requires 0 <= i < |chosen|
    ensures r == SceneOutputs(chosen, chosen[0], rasters, size, path)[i]
  {
    var v := chosen[i];
    var first := chosen[0];
    var bands := SceneIndices(v, rasters, size);
    if bands.Err? {
      return Err(bands.error);
    }
    var georef := Georef(first);
    if georef.Err? {
      return Err(georef.error);
    }
    var name := OutputName(v);
    if name.Err? {
      return Err(name.error);
    }
    var sp := JoinPath([path, name.value]);
    r := Ok(Output(sp, bands.value, georef.value));
  }

  /** The loop of `_feature` over the ranked scenes; the first error ends it. */
  method WriteScenes(chosen: seq<SceneView>, rasters: map<string, seq<real>>, size: nat, path: string)
    returns (outs: seq<Output>, err: Option<PyError>)
    requires |chosen| > 0
    ensures (outs, err) == WriteAll(chosen, chosen[0], rasters, size, path)
  {
    ghost var rs := SceneOutputs(chosen, chosen[0], rasters, size, path);
    outs := [];
    var i := 0;
    while i < |chosen|
      invariant 0 <= i <= |chosen| && |outs| == i
      invariant forall j :: 0 <= j < i ==> rs[j] == Ok(outs[j])
    {
      var o := WriteScene(chosen, i, rasters, size, path);
      if o.Err? {
        err := Some(o.error);
        UntilErrorPrefix(rs, outs);
        return;
      }
      OkPrefixSnoc(rs, outs, o.value);
      outs := outs + [o.value];
      i := i + 1;
    }
    err := None;
    UntilErrorPrefix(rs, outs);
  }

  /** One more successful result extends the run of successes by its value. */
  lemma OkPrefixSnoc<T>(rs: seq<Result<T, PyError>>, outs: seq<T>, x: T)
    requires |outs| < |rs| && rs[|outs|] == Ok(x)
    requires forall j :: 0 <= j < |outs| ==> rs[j] == Ok(outs[j])
    ensures forall j :: 0 <= j <= |outs| ==> rs[j] == Ok((outs + [x])[j])
  {
    var r := outs + [x];
    assert forall j :: 0 <= j < |outs| ==> r[j] == outs[j];
  }

  /** `_feature(ts, path, ts_legth=...)`. */
  method Extract(vs: seq<SceneView>, path: string, tsLegth: Option<int>, rasters: map<string, seq<real>>)
    returns (outs: seq<Output>, err: Option<PyError>)
    ensures (outs, err) == Extraction(vs, path, tsLegth, rasters)
  {
    if |vs| == 0 {
      return [], Some(IndexError);
    }
    var b04 := BandRaster(vs[0], "B04", rasters);
    if b04.Err? {
      return [], Some(b04.error);
    }
    var chosen := Ranked(vs, tsLegth);
    if chosen.Err? {
      return [], Some(chosen.error);
    }
    if |chosen.value| == 0 {
      return [], None;
    }
    outs, err := WriteScenes(chosen.value, rasters, |b04.value|, path);
  }

  /** `str(savepath)` as `joinpath` spells it: `None` when no folder is given. */
  function PathArg(p: Option<string>): string {
    if p.Some? then p.value else "None"
  }

  /** The folder `manager` writes to: `check_folder(savepath, 'Features')`. */
  function FeatureFolder(savepath: Option<string>): string {
    Joined([PathArg(savepath), "Features"])
  }

  /** `manager(tile, year=..., savepath=..., ts_legth=...)`: the year's scenes by the default
      calendar window, and their features when there are any. Without a year the whole series
      object is unpacked into three names, which fails unless it holds exactly three scenes; with
      three, `len` of a single scene raises TypeError. */
  method Manager(tile: L2SPTile, year: Option<string>, savepath: Option<string>, tsLegth: Option<int>,
                 rasters: map<string, seq<real>>) returns (outs: seq<Output>, err: Option<PyError>)
    ensures !GivenString(year) ==> outs == [] && err == Some(if |old(tile.series.ts)| == 3 then TypeError else ValueError)
    ensures GivenString(year) ==>
      var sel := old(YearSelection(tile.series.ts, year.value, "default", None));
      (sel.Err? ==> outs == [] && err == Some(sel.error)) &&
      (sel.Ok? && |sel.value.0| == 0 ==> outs == [] && err == None) &&
      (sel.Ok? && |sel.value.0| > 0 ==> (outs, err) == Extraction(Views(sel.value.0), FeatureFolder(savepath), tsLegth, rasters))
  {
    var folder := JoinPath([PathArg(savepath), "Features"]);
    var view := tile.GetTimeSeries(year, "default", None);
    if view.Err? {
      return [], Some(view.error);
    }
    if view.value.Whole? {
      return [], Some(if |view.value.series.ts| == 3 then TypeError else ValueError);
    }
    var yearts := view.value.series.ts;
    if |yearts| == 0 {
      return [], None;
    }
    outs, err := Extract(Views(yearts), folder, tsLegth, rasters);
  }
}
