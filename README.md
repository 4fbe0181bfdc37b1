# Landsat Collection-2 Level-2 scenes and time series, in Dafny

This project models the Landsat Collection-2 Level-2 Science Product (L2SP) part of the
`RSdatamanager` library and the feature extractor that uses it. The modelled behaviour is:

- **Band names and quality mask** (`Landsatimage.py`):
  - `translate` maps vendor band aliases to canonical band ids. There is one table for `LC08` and one for every other sensor.
  - `_getmask` decodes each distinct 16-bit `QA_PIXEL` value into a category: 0 valid, 2 fill, 3 cloud or cirrus, 4 cloud shadow, 5 snow.
  - It scatters those categories into a mask, counts the invalid, no-data, cloudy and total pixels, and caches the mask as `MASK.npy`.
  - Scene metadata (sensor, tile, date, temp path) is parsed from `LXSS_LLLL_PPPRRR_YYYYMMDD_...` file names.
  - `feature('MASK')` reads the cached mask and computes it when the file is missing.
- **Scene reader, time series and tile registry** (`LandsatL2SP.py`):
  - `read_Landsat_L2SP` picks a scene's band and QA files.
  - `LandsatL2SPts` appends scenes with a type check and sorts them in place by date. It also computes day offsets, filters by date fields (`find`) and cuts calendar or "farming" year windows (`getyear`).
  - `L2SPtile` reads and sorts one tile's scenes.
  - `getL2SPTileList` walks a directory tree and groups the scene directories by WRS path/row.
- **Index extraction** (`featurext.py`):
  - Ranks the scenes of a year from clearest to cloudiest and keeps the first `ts_legth`.
  - Computes three normalised-difference indices per scene, `ndi(NIR,SWIR1)`, `ndi(NIR,RED)` and `ndi(SWIR2,BLUE)`. Zero reflectances are masked, zero denominators are guarded and results are clamped to [-1, 1].
  - Names each output file and takes its georeferencing from the clearest scene.
- **Helpers** (`filemanager.py`):
  - `joinpath` (with `os.path.normpath`).
  - The `.pkl`/`.mat` suffix rules of `savevar`/`loadvar`/`savemat`/`loadmat`.
  - `string2ordinal`/`ordinal2string` over the proleptic Gregorian calendar.
  - The centre-square size and offsets of `cropGeoTIFF_E`.
  - The interpolation-name table of `rescale`.

Modules follow the program's files:

| module | file |
|---|---|
| `BandNames`, `QualityMask`, `Landsatimage` | `Landsatimage.py` |
| `LandsatL2SP`, `L2SPSeries` | `LandsatL2SP.py` |
| `FeatureExt` | `featurext.py` |
| `FileManager`, `Dates` | `filemanager.py` |
| `PyStrings`, `Seqs`, `Dicts`, `Wrappers` | the Python built-ins (`str.split`, `int`, `str`, comprehensions, `sorted`, `dict`) |

How the Python values are modelled:

- **Errors.** An exception is an `Err` of a `PyError` (KeyError, IndexError, IOError, ValueError, TypeError, StopIteration, or a raised warning).
- **Dictionaries** are association lists that keep insertion order, as Python dicts do.
- **Rasters** are flattened row-major into sequences or arrays. Every raster operation in the core is elementwise.
- **Index pixels** are `Option<real>`, with `None` standing for NaN.
- **Scenes** are objects of class `LandsatImg`. Their metadata fields are written in place by the methods that model `_storepaths`, `_getinfo`, `_gettemppath` and `_getmask`.
- **Time series** are objects of class `LandsatL2SPts`, whose scene list is reassigned by `append` and `sort`.

The QA decoder follows the code. A value with both bit 0 (fill) and bit 5 (snow) set decodes to 2 (fill), because the fill check comes last and overwrites the snow category (`Landsatimage.py:116-117`). `QualityMask.CategorySnowAndFill` states the code's answer.

## Model

| member | source | states |
|---|---|---|
| `PyStrings.JoinSplit` | libs/RSdatamanager/Landsat/Landsatimage.py:58-59 | joining the pieces of `s.split(c)` with `c` gives back `s` |
| `PyStrings.SplitPiecesFree` | libs/RSdatamanager/Landsat/Landsatimage.py:58-59 | no piece of `s.split(c)` contains `c` |
| `PyStrings.SplitWithoutSeparator` | libs/RSdatamanager/Landsat/Landsatimage.py:58-59 | a string without the separator splits into itself alone |
| `PyStrings.SplitAtSeparator` | libs/RSdatamanager/Landsat/Landsatimage.py:58-59 | splitting `a + c + b` at `c` is splitting `a` and `b` separately |
| `PyStrings.ContainsAt` | libs/RSdatamanager/Landsat/LandsatL2SP.py:25 | `sub in s` holds exactly when `sub` occurs in `s` at some position |
| `PyStrings.BasenameOfLastName` | libs/RSdatamanager/Landsat/Landsatimage.py:56 | `os.path.split(dir + '/' + name)[1]` is `name` for a name without `/` |
| `PyStrings.NatStringDigits` | libs/RSdatamanager/Landsat/LandsatL2SP.py:138 | `str(n)` is a non-empty digit string whose value is `n`; four digits for 1000..9999 |
| `PyStrings.NatStringLength` | libs/RSdatamanager/Landsat/LandsatL2SP.py:141-142 | `str(n)` has 1, 2, 3 or 4 digits by the decade of `n` below 10000 |
| `PyStrings.ParseIntString` | libs/RSdatamanager/Landsat/LandsatL2SP.py:141 | `int(str(n)) == n` for every integer |
| `PyStrings.PadDigitsValue` | libs/RSdatamanager/filemanager.py:426-428 | a digit string is the zero-padded form of its own value |
| `PyStrings.DigitsValuePad` | libs/RSdatamanager/filemanager.py:426-428 | the zero-padded form of `n < 10^w` denotes `n` |
| `Dates.ToOrdinal` | libs/RSdatamanager/filemanager.py:421-424 | `toordinal()` of a date lies among the ordinals of its own year |
| `Dates.FromOrdinal` | libs/RSdatamanager/filemanager.py:426-428 | `fromordinal(n)` succeeds exactly for 1..ordinal(9999-12-31), and its date has ordinal `n`; otherwise ValueError |
| `Dates.ToOrdinalInjective` | libs/RSdatamanager/filemanager.py:421-424 | distinct valid dates have distinct ordinals |
| `Dates.FromToOrdinal` | libs/RSdatamanager/filemanager.py:426-428 | `fromordinal(d.toordinal()) == d` |
| `Dates.NextDayOrdinal` | libs/RSdatamanager/filemanager.py:421-424 | consecutive calendar days have consecutive ordinals |
| `Dates.InCalendarYear` | libs/RSdatamanager/Landsat/LandsatL2SP.py:137-139 | a date's ordinal lies between those of January 1 and December 31 of `y` exactly when the date is in year `y` |
| `Dates.ParseYmd` | libs/RSdatamanager/filemanager.py:421-424 | whatever `strptime(s, '%Y%m%d')` accepts is a valid date |
| `Dates.FormatYmd` | libs/RSdatamanager/filemanager.py:426-428 | `strftime('%Y%m%d')` of a date is eight characters |
| `Dates.FormatParse` | libs/RSdatamanager/filemanager.py:421-428 | formatting a parsed string gives back the string |
| `Dates.ParseFormat` | libs/RSdatamanager/filemanager.py:421-428 | parsing a formatted date gives back the date |
| `Dates.StringOrdinalRoundTrip` | libs/RSdatamanager/filemanager.py:421-428 | `ordinal2string(string2ordinal(s)) == s` for every string `string2ordinal` accepts |
| `Dates.OrdinalStringRoundTrip` | libs/RSdatamanager/filemanager.py:421-428 | `string2ordinal(ordinal2string(n)) == n` for every ordinal `ordinal2string` accepts |
| `Dates.String2OrdinalOfDate` | libs/RSdatamanager/filemanager.py:421-424 | `string2ordinal` of a date's `%Y%m%d` string is that date's ordinal |
| `Dates.ParseYearAndDay` | libs/RSdatamanager/Landsat/LandsatL2SP.py:138-139 | a four-digit year followed by `MMDD` parses to that day |
| `FileManager.NormPath` | libs/RSdatamanager/filemanager.py:28-30 | `os.path.normpath` never returns the empty string |
| `FileManager.JoinPath` | libs/RSdatamanager/filemanager.py:32-36 | the loop that appends each argument and a `/`, then normalises, computes `Joined(args)` |
| `FileManager.JoinNames` | libs/RSdatamanager/filemanager.py:32-36 | `joinpath` of plain names is those names separated by single slashes |
| `FileManager.BasenameOfJoined` | libs/RSdatamanager/filemanager.py:32-36 | the last name of `joinpath(root, name)` is `name`, whatever `root` is |
| `FileManager.WithSuffix` | libs/RSdatamanager/filemanager.py:40-43 | the file name ends in the extension (`.pkl` here, `.mat` for `savemat`/`loadmat`); the extension is appended exactly when it is missing |
| `FileManager.PklPathIdempotent` | libs/RSdatamanager/filemanager.py:38-55 | normalising a normalised path changes nothing; `p` and `p + '.pkl'` name the same file |
| `FileManager.SaveLoadVar` | libs/RSdatamanager/filemanager.py:38-64 | `loadvar` gives back what `savevar` stored, under either spelling of the name |
| `FileManager.LoadVarMissing` | libs/RSdatamanager/filemanager.py:57-64 | `loadvar` raises exactly when the normalised file is missing |
| `FileManager.MatKeyOfName` | libs/RSdatamanager/filemanager.py:67-72 | the key `fn[:-4]` is the file name without `.mat`, i.e. the given name with any `.mat` removed |
| `FileManager.SaveLoadMat` | libs/RSdatamanager/filemanager.py:66-84 | `loadmat` with the same folder and name, with or without `.mat`, reads back what `savemat` wrote |
| `FileManager.RoundTens` | libs/RSdatamanager/filemanager.py:342 | `round(n, -1)` is a multiple of 10 within 5 of `n` |
| `FileManager.RoundHalf` | libs/RSdatamanager/filemanager.py:346-347 | `round(x / 2)` is within one half of `x / 2` |
| `FileManager.CenterSideIsFloorTens` | libs/RSdatamanager/filemanager.py:340-344 | the crop side is the largest multiple of 10 not above `min(cols, rows)` |
| `FileManager.CropWindowInside` | libs/RSdatamanager/filemanager.py:340-349 | the crop window lies inside the raster on both axes and is centred to within one pixel |
| `FileManager.RescaleOrder` | libs/RSdatamanager/filemanager.py:388-398 | the name table accepts exactly its five names, each mapped to order 0, 1 or 3; any other name raises |
| `FileManager.RescaleOrderTable` | libs/RSdatamanager/filemanager.py:388-398 | the three nearest-neighbour spellings give 0, `bilinear` gives 1, `bicubic` gives 3, and the lookup is case-sensitive |
| `FileManager.RescaleWarningNeverRaised` | libs/RSdatamanager/filemanager.py:404-407 | as written, neither warning is ever raised, for any accepted name and any scale |
| `FileManager.RescaleChecks` | libs/RSdatamanager/filemanager.py:394-407 | with the guard on the name, the checks pass exactly for an accepted name outside the two discouraged cases, and give its order |
| `FileManager.RescaleWarnsOnDiscouraged` | libs/RSdatamanager/filemanager.py:404-407 | bilinear upscaling and bicubic downscaling raise with the intended guard, not with the guard as written |
| `Seqs.FilterSpec` | libs/RSdatamanager/Landsat/LandsatL2SP.py:16-19 | a comprehension filter keeps exactly the elements that pass, in their order |
| `Seqs.FilterFilter` | libs/RSdatamanager/Landsat/LandsatL2SP.py:120-132 | two filters in a row are one filter with both tests |
| `Seqs.FlatMapIn` | libs/RSdatamanager/Landsat/LandsatL2SP.py:296-303 | an element of the concatenated lists comes from the list of some element |
| `Seqs.SortByKeySpec` | libs/RSdatamanager/Landsat/LandsatL2SP.py:83 | sorting by key orders by key, permutes, and keeps equal keys in their original order (stability) |
| `Seqs.SortByKeyItems` | libs/RSdatamanager/Landsat/LandsatL2SP.py:83 | sorting permutes the sorted items |
| `Seqs.SliceTo` | libs/ToolboxModules/featurext.py:36 | `s[0:k]` is a prefix of `s`, whose length is `k` (counted from the end when negative) clipped to `0..len(s)` |
| `Dicts.PutSpec` | libs/RSdatamanager/Landsat/Landsatimage.py:51 | after `d[k] = v`, `k` maps to `v`, other keys are unchanged, and a new key goes last |
| `Dicts.PutTwice` | libs/RSdatamanager/Landsat/LandsatL2SP.py:27-33 | a second write to the same key overrides the first |
| `Dicts.PutPresentUntouched` | libs/RSdatamanager/Landsat/Landsatimage.py:46-51 | a key no write names keeps its old value |
| `Dicts.PutPresentLast` | libs/RSdatamanager/Landsat/Landsatimage.py:46-51 | a written key holds the value of the last write to it |
| `Dicts.PutPresentDistinct` | libs/RSdatamanager/Landsat/Landsatimage.py:46-51 | a run of writes keeps the dictionary's keys distinct |
| `Dicts.AppendAtSteps` | libs/RSdatamanager/Landsat/LandsatL2SP.py:310-312 | the `if k not in d: d[k] = []` / `d[k].append(v)` pair is one `AppendAt` |
| `Dicts.AppendAtSpec` | libs/RSdatamanager/Landsat/LandsatL2SP.py:310-312 | appending under `k` extends `k`'s list by `v` (starting from `[]`) and leaves other keys alone |
| `Dicts.GroupSpec` | libs/RSdatamanager/Landsat/LandsatL2SP.py:306-312 | the grouped dictionary maps a present key to its values in order, and holds no absent key |
| `Dicts.GroupKeyedSpec` | libs/RSdatamanager/Landsat/LandsatL2SP.py:306-312 | grouping values by a key function maps each key to `[v for v in vals if key(v) == k]`, with distinct keys |
| `Dicts.ValuesWithKeySpec` | libs/RSdatamanager/Landsat/LandsatL2SP.py:306-312 | the values under a key are exactly those with that key, in their order |
| `Dicts.GroupDistinct` | libs/RSdatamanager/Landsat/LandsatL2SP.py:306-312 | grouping never yields a key twice |
| `QualityMask.BinaryReprBit` | libs/RSdatamanager/Landsat/Landsatimage.py:99 | character `b[-(k+1)]` of `np.binary_repr(v, width)` is bit `k` of `v` |
| `QualityMask.Category` | libs/RSdatamanager/Landsat/Landsatimage.py:98-117 | every decoded category is one of 0, 2, 3, 4, 5 |
| `QualityMask.CategoryByBits` | libs/RSdatamanager/Landsat/Landsatimage.py:102-117 | each category in both directions: 2 iff bit 0; 3 iff not 2 and bit 2, 3, 9 or bits 14+15; 4 iff neither and bit 4 or bits 10+11; 5 iff none of those and bit 5; 0 otherwise |
| `QualityMask.CategorySnowAndFill` | libs/RSdatamanager/Landsat/Landsatimage.py:102-117 | snow alone (32) is 5; snow with fill (33) is 2, the fill check overwriting |
| `QualityMask.CategoryHighCirrus` | libs/RSdatamanager/Landsat/Landsatimage.py:111-113 | high cirrus confidence (bits 14 and 15) is cloud |
| `QualityMask.CategoryHighShadow` | libs/RSdatamanager/Landsat/Landsatimage.py:107-108 | high shadow confidence (bits 10 and 11) is shadow |
| `QualityMask.CategoryLowConfidence` | libs/RSdatamanager/Landsat/Landsatimage.py:98-117 | low confidences in every field (bits 6, 8, 12, 14 alone) leave a pixel valid |
| `QualityMask.InvalidDecomposes` | libs/RSdatamanager/Landsat/Landsatimage.py:127-130 | on a category mask, the non-zero pixels are the fill, cloud, shadow and snow pixels |
| `QualityMask.StatsConsistent` | libs/RSdatamanager/Landsat/Landsatimage.py:127-130 | `nan + cloudy <= invalid <= total == height*width`, and `invalid - nan - cloudy` is the count of snow pixels |
| `QualityMask.MaskStatsConsistent` | libs/RSdatamanager/Landsat/Landsatimage.py:120-130 | the statistics of a decoded QA raster satisfy those bounds |
| `BandNames.SearchResult` | libs/RSdatamanager/Landsat/Landsatimage.py:195-202 | the search returns the key of an entry that is the first, in table order, to list the name; it returns None exactly when no list holds it |
| `BandNames.SearchFirst` | libs/RSdatamanager/Landsat/Landsatimage.py:195-199 | the search finds exactly the first entry whose aliases hold the name |
| `BandNames.TranslateSpec` | libs/RSdatamanager/Landsat/Landsatimage.py:156-202 | `translate(s) == k` iff `k` is the first entry of the sensor's table listing `s`; None iff no entry lists `s` |
| `BandNames.KeysFirst` | libs/RSdatamanager/Landsat/Landsatimage.py:160-193 | every canonical id is in its own alias list and in no earlier one |
| `BandNames.TranslateKeyFixed` | libs/RSdatamanager/Landsat/Landsatimage.py:163-199 | every canonical id translates to itself, on both tables |
| `BandNames.TranslateIdempotent` | libs/RSdatamanager/Landsat/Landsatimage.py:163-199 | translating a translated name changes nothing |
| `BandNames.TranslateBlue` | libs/RSdatamanager/Landsat/Landsatimage.py:160-181 | `BLUE` is `B02` for `LC08` and `B01` for every other sensor string, known or not |
| `Landsatimage.InsertAscending` | libs/RSdatamanager/Landsat/Landsatimage.py:94 | adding a value to an ascending distinct list keeps it ascending and distinct, holding exactly the old values and the new one |
| `Landsatimage.UniqueValues` | libs/RSdatamanager/Landsat/Landsatimage.py:94 | `np.unique` gives a strictly ascending list holding exactly the values of the raster |
| `Landsatimage.CategoryFromDigits` | libs/RSdatamanager/Landsat/Landsatimage.py:98-117 | the decoder's four unconditional checks on the binary digits, later overwriting earlier, compute `Category` |
| `Landsatimage.DecodeValues` | libs/RSdatamanager/Landsat/Landsatimage.py:98-117 | the per-value loop gives each distinct value its category, in order |
| `Landsatimage.DecodeAt` | libs/RSdatamanager/Landsat/Landsatimage.py:99-117 | one iteration writes value `i`'s category into `mask_qa_values[i]` and nothing else |
| `Landsatimage.ScatterMask` | libs/RSdatamanager/Landsat/Landsatimage.py:120-125 | each pixel gets the category of its QA value; a pixel whose value is not listed stays 0 |
| `Landsatimage.DecodeMask` | libs/RSdatamanager/Landsat/Landsatimage.py:94-125 | the two loops of `_getmask` produce `MaskOf(qa)`: one pixel per QA pixel, holding that QA value's category |
| `Landsatimage.StoredPathsSnoc` | libs/RSdatamanager/Landsat/Landsatimage.py:45-51 | visiting one more feature is one more dictionary write under its translated name |
| `Landsatimage.StoredPathsUntouched` | libs/RSdatamanager/Landsat/Landsatimage.py:45-51 | a key no feature translates to keeps its old path |
| `Landsatimage.StoredPathsLast` | libs/RSdatamanager/Landsat/Landsatimage.py:45-51 | a translated key holds the path of the last feature that translates to it |
| `Landsatimage.StoredPathsDistinct` | libs/RSdatamanager/Landsat/Landsatimage.py:45-51 | `_storepaths` keeps the feature-path dictionary's keys distinct |
| `Landsatimage.SceneNameTokens` | libs/RSdatamanager/Landsat/Landsatimage.py:151-153 | `tile_date` splits back into tile and date when neither holds `_` |
| `Landsatimage.LandsatImg.constructor` | libs/RSdatamanager/Landsat/Landsatimage.py:8-11 | a new scene has no metadata and no feature paths (the `resolution` entry is left out) |
| `Landsatimage.LandsatImg.NameSpec` | libs/RSdatamanager/Landsat/Landsatimage.py:151-153 | `name()` succeeds exactly once tile and date are set (KeyError before), and `tile_date` splits back into them when neither holds `_` |
| `Landsatimage.LandsatImg.StorePaths` | libs/RSdatamanager/Landsat/Landsatimage.py:44-51 | the feature paths become the writes of every feature under its translated name; the sensor becomes the first token of the last feature's file name; nothing else changes |
| `Landsatimage.LandsatImg.StorePath` | libs/RSdatamanager/Landsat/Landsatimage.py:45-51 | one pass of the loop: the sensor becomes the first token of this path's file name and the path is written under the alias translated with that sensor; nothing else changes |
| `Landsatimage.LandsatImg.GetInfo` | libs/RSdatamanager/Landsat/Landsatimage.py:54-64 | tile becomes the third and date the fourth `_` token of the stem; IndexError, after setting what it could, when the name is short |
| `Landsatimage.LandsatImg.GetMetadata` | libs/RSdatamanager/Landsat/Landsatimage.py:36-42 | tile and date are read from the first stored path, if there is one |
| `Landsatimage.LandsatImg.GetTempPath` | libs/RSdatamanager/Landsat/Landsatimage.py:68-76 | without a temp path, the first feature's file name (StopIteration when there is none); with one, `joinpath(temppath, name())` (KeyError while the name is unset) |
| `Landsatimage.LandsatImg.Populate` | libs/RSdatamanager/Landsat/Landsatimage.py:17-32 | the feature paths and sensor are those `_storepaths` writes, and the pixel counts are untouched |
| `Landsatimage.LandsatImg.GetMask` | libs/RSdatamanager/Landsat/Landsatimage.py:80-146 | the counts become the statistics of `MaskOf(qa)`, so `InvalidPixNum`, `NANPixNum`, `CloudyPixNum` and `TotalPixNum` then give the non-zero, fill, cloud-or-shadow and total pixel counts of that mask; `MASK.npy` under the temp path holds the mask; nothing else changes |
| `Landsatimage.LandsatImg.Feature` | libs/RSdatamanager/Landsat/Landsatimage.py:204-225 | `MASK` with no temp path raises IOError; a cached mask is loaded as is; a missing one is computed, saved and loaded; any other name goes to the base reader |
| `LandsatL2SP.FileKeyRange` | libs/RSdatamanager/Landsat/LandsatL2SP.py:24-33 | only `QA_PIXEL` and `B1`..`B7` are ever keys |
| `LandsatL2SP.ListRasters` | libs/RSdatamanager/Landsat/LandsatL2SP.py:16-19 | the first loop keeps the names ending in `.TIF` or `.tif`, in order |
| `LandsatL2SP.StoreBand` | libs/RSdatamanager/Landsat/LandsatL2SP.py:25-33 | one iteration of the second loop is at most one dictionary write |
| `LandsatL2SP.StoreBands` | libs/RSdatamanager/Landsat/LandsatL2SP.py:24-33 | the second loop performs the writes of the names with a key, in order |
| `LandsatL2SP.SelectFeatures` | libs/RSdatamanager/Landsat/LandsatL2SP.py:13-33 | the two loops build `SelectedFeatures` of the listing |
| `LandsatL2SP.SelectedFeaturesKeys` | libs/RSdatamanager/Landsat/LandsatL2SP.py:24-33 | the features dictionary has distinct keys, each `QA_PIXEL` or a band `B1`..`B7` |
| `LandsatL2SP.SelectedFeaturesSpec` | libs/RSdatamanager/Landsat/LandsatL2SP.py:16-33 | a key no raster name yields is absent; a key holds `joinpath(dir, fn)` of the last raster name yielding it; only `.TIF`/`.tif` names count |
| `LandsatL2SP.ReadLandsatL2SP` | libs/RSdatamanager/Landsat/LandsatL2SP.py:12-41 | the scene's feature paths are its selected files, written under their translated names |
| `LandsatL2SP.DirEntry` | libs/RSdatamanager/Landsat/LandsatL2SP.py:297-303 | a sub-directory is recorded, as `joinpath(root, f)`, exactly when its name contains `LC08_L2SP` or `LE07_L2SP` and has length 40; once per marker it matches, so twice when it matches both |
| `LandsatL2SP.WalkPathsSpec` | libs/RSdatamanager/Landsat/LandsatL2SP.py:295-303 | a path is recorded exactly when it joins a walked directory and one of its scene sub-directories |
| `LandsatL2SP.GetTileOfFields` | libs/RSdatamanager/Landsat/LandsatL2SP.py:318-324 | a name `a_b_t` or `a_b_t_rest` with `a`, `b`, `t` free of `_` has tile `t`, the PPPRRR field |
| `LandsatL2SP.GetTileTooFew` | libs/RSdatamanager/Landsat/LandsatL2SP.py:318-324 | a name with fewer than two `_` has no tile: IndexError |
| `LandsatL2SP.GroupByTile` | libs/RSdatamanager/Landsat/LandsatL2SP.py:306-312 | the grouping loop computes `TileGroups(filepaths)` |
| `LandsatL2SP.AddToTile` | libs/RSdatamanager/Landsat/LandsatL2SP.py:308-312 | one iteration appends the path under its tile, or raises IndexError exactly when its name has no tile |
| `LandsatL2SP.TileGroupsSpec` | libs/RSdatamanager/Landsat/LandsatL2SP.py:305-317 | the registry exists iff every name has a tile; its keys are distinct; each tile maps to exactly its paths in discovery order; an unseen tile is absent |
| `LandsatL2SP.VisitSubdir` | libs/RSdatamanager/Landsat/LandsatL2SP.py:297-303 | one inner iteration appends the sub-directory's recorded paths |
| `LandsatL2SP.CollectScenePaths` | libs/RSdatamanager/Landsat/LandsatL2SP.py:295-303 | the walk loop records `WalkPaths(walk)` |
| `LandsatL2SP.GetL2SPTileList` | libs/RSdatamanager/Landsat/LandsatL2SP.py:293-317 | the result is the tile grouping of the recorded scene directories |
| `L2SPSeries.SceneDate` | libs/RSdatamanager/Landsat/LandsatL2SP.py:89-90 | a scene date that can be read is a valid calendar date |
| `L2SPSeries.DatedScenes` | libs/RSdatamanager/Landsat/LandsatL2SP.py:121-132 | dating the scenes succeeds iff every date can be read, and pairs each scene with its date in place |
| `L2SPSeries.OrdinalKeyed` | libs/RSdatamanager/Landsat/LandsatL2SP.py:83-90 | the sort keys exist iff every date can be read, and pair each scene with its ordinal in place |
| `L2SPSeries.EuclideanDateSpec` | libs/RSdatamanager/Landsat/LandsatL2SP.py:92-95 | `euclideandate` is symmetric and zero exactly for scenes of the same day |
| `L2SPSeries.SortedScenesSpec` | libs/RSdatamanager/Landsat/LandsatL2SP.py:80-90 | the key-sorted scenes are ordered by ordinal, a permutation of the series, and stable for equal dates |
| `L2SPSeries.SortedScenesOrdered` | libs/RSdatamanager/Landsat/LandsatL2SP.py:80-90 | the sorted scenes are in non-decreasing date order |
| `L2SPSeries.SortedSeriesSpec` | libs/RSdatamanager/Landsat/LandsatL2SP.py:80-90 | the two facts `sort` promises: date order and the same scenes |
| `L2SPSeries.DaysSpec` | libs/RSdatamanager/Landsat/LandsatL2SP.py:105-114 | without an anchor: IndexError iff there are no scenes, else the first offset is 1 and offsets do not decrease; with an anchor, each offset is `ordinal - (ordinal(anchor) - 1)` |
| `L2SPSeries.NarrowAllSelected` | libs/RSdatamanager/Landsat/LandsatL2SP.py:120-132 | the six filters of `find` in a row are a single filter by all given fields |
| `L2SPSeries.SelectedSpec` | libs/RSdatamanager/Landsat/LandsatL2SP.py:120-134 | the filter keeps a subsequence, holding exactly the scenes whose date matches |
| `L2SPSeries.FindFails` | libs/RSdatamanager/Landsat/LandsatL2SP.py:116-134 | `find` raises exactly when some field is truthy and some scene's date cannot be read |
| `L2SPSeries.FindSpec` | libs/RSdatamanager/Landsat/LandsatL2SP.py:116-134 | `find` returns a subsequence of the series holding exactly the scenes matching every truthy field (0 and None are wildcards) |
| `L2SPSeries.FindTimeOfDay` | libs/RSdatamanager/Landsat/LandsatL2SP.py:127-132 | a truthy hour, minute or second finds nothing, scene dates having no time of day |
| `L2SPSeries.InWindowOrder` | libs/RSdatamanager/Landsat/LandsatL2SP.py:150 | the window filter keeps the scenes in their order |
| `L2SPSeries.InWindowMembers` | libs/RSdatamanager/Landsat/LandsatL2SP.py:150 | the window keeps exactly the scenes whose ordinal lies in `[start, end]` |
| `L2SPSeries.WindowOfSeries` | libs/RSdatamanager/Landsat/LandsatL2SP.py:150 | over a series: a subsequence holding exactly its scenes dated in `[start, end]` |
| `L2SPSeries.DefaultWindow` | libs/RSdatamanager/Landsat/LandsatL2SP.py:137-139 | the `default` window of a four-digit year is January 1 to December 31 |
| `L2SPSeries.FarmingWindow` | libs/RSdatamanager/Landsat/LandsatL2SP.py:140-143 | the `farming` window is November 11 of the year before to November 10 |
| `L2SPSeries.YearSelectionSpec` | libs/RSdatamanager/Landsat/LandsatL2SP.py:136-152 | `getyear` keeps a subsequence holding exactly the scenes inside the window widened by the buffer, and returns both ends as strings |
| `L2SPSeries.DefaultYearScenes` | libs/RSdatamanager/Landsat/LandsatL2SP.py:136-150 | the default window without a buffer keeps exactly the scenes dated in that year |
| `L2SPSeries.SceneInYear` | libs/RSdatamanager/Landsat/LandsatL2SP.py:137-150 | a scene's ordinal is inside the calendar window of `y` exactly when it is dated in `y` |
| `L2SPSeries.DaysFrom` | libs/RSdatamanager/Landsat/LandsatL2SP.py:108-114 | the offset loop computes `Days(sorted, firstday)` |
| `L2SPSeries.ReadScene` | libs/RSdatamanager/Landsat/LandsatL2SP.py:60 | a freshly read scene has the feature paths of its directory's files |
| `L2SPSeries.ReadAll` | libs/RSdatamanager/Landsat/LandsatL2SP.py:56-61 | the reading loop reads one new scene per directory, in order, until an error |
| `L2SPSeries.LandsatL2SPts.constructor` | libs/RSdatamanager/Landsat/LandsatL2SP.py:48-53 | the temp path is kept only when truthy; the series starts empty (see "## Left out" for a falsy temp path) |
| `L2SPSeries.LandsatL2SPts.ReadScenes` | libs/RSdatamanager/Landsat/LandsatL2SP.py:51-62 | with a temp path the series gains one scene per directory, in order; without one nothing happens |
| `L2SPSeries.LandsatL2SPts.Append` | libs/RSdatamanager/Landsat/LandsatL2SP.py:72-76 | a scene goes at the end; anything else raises TypeError and changes nothing |
| `L2SPSeries.LandsatL2SPts.SortKeyed` | libs/RSdatamanager/Landsat/LandsatL2SP.py:80-83 | the keyed sort leaves the scenes in date order and permuted; a date that cannot be read leaves them unchanged |
| `L2SPSeries.LandsatL2SPts.Sort` | libs/RSdatamanager/Landsat/LandsatL2SP.py:80-90 | `sort()` reorders in place into the stable date order and a permutation; on a key error nothing changes |
| `L2SPSeries.LandsatL2SPts.GetDays` | libs/RSdatamanager/Landsat/LandsatL2SP.py:105-114 | `getdays` sorts first and returns the day offsets of the sorted series |
| `L2SPSeries.LandsatL2SPts.GetYear` | libs/RSdatamanager/Landsat/LandsatL2SP.py:136-152 | a fresh series with the parent's temp path holds the year selection; the parent is untouched |
| `L2SPSeries.L2SPTile.constructor` | libs/RSdatamanager/Landsat/LandsatL2SP.py:245-259 | the tile metadata with an empty placeholder series |
| `L2SPSeries.L2SPTile.GetTimeSeries` | libs/RSdatamanager/Landsat/LandsatL2SP.py:278-289 | with a truthy year, a fresh series holding the year selection and its bounds; otherwise the whole series |
| `L2SPSeries.ReadSeries` | libs/RSdatamanager/Landsat/LandsatL2SP.py:241 | a fresh series under the temp path whose scenes, once read without error, are fresh and hold the paths of their directories, in order |
| `L2SPSeries.SortRead` | libs/RSdatamanager/Landsat/LandsatL2SP.py:242 | the sort keeps the temp path and each scene's paths, and on success leaves the same scenes in date order |
| `L2SPSeries.NewTile` | libs/RSdatamanager/Landsat/LandsatL2SP.py:237-259 | the tile comes from the first directory name (`'None'` without one), the temp path is `<temppath>/numpy`, and the series holds, in date order, exactly the scenes read (as a multiset), scene `j` with the paths of directory `j` |
| `FeatureExt.NonZero` | libs/ToolboxModules/featurext.py:96 | the guarded denominator is never zero |
| `FeatureExt.ClampSpec` | libs/ToolboxModules/featurext.py:99-100 | clamping keeps no-data, lands in [-1, 1], leaves values already there alone and is idempotent |
| `FeatureExt.NdiRange` | libs/ToolboxModules/featurext.py:91-102 | an index pixel is no-data exactly when an input is, and otherwise lies in [-1, 1] |
| `FeatureExt.ZeroGivesNoData` | libs/ToolboxModules/featurext.py:47-63 | a zero pixel in either band gives a no-data index once zeros are masked |
| `FeatureExt.NdiOfReflectances` | libs/ToolboxModules/featurext.py:91-102 | for non-negative reflectances with a positive sum the index is `(x - y) / (x + y)`, in [-1, 1] |
| `FeatureExt.NdiAntisymmetric` | libs/ToolboxModules/featurext.py:91-102 | swapping the bands negates the index |
| `FeatureExt.MaskZeros` | libs/ToolboxModules/featurext.py:48 | `b[b == 0] = nan` in place turns exactly the zeros into no-data |
| `FeatureExt.ReplaceZeros` | libs/ToolboxModules/featurext.py:96 | `denom[denom == 0] = 1e-8` in place |
| `FeatureExt.ClampAll` | libs/ToolboxModules/featurext.py:99-100 | the two clipping assignments in place clamp every pixel |
| `FeatureExt.Divide` | libs/ToolboxModules/featurext.py:97 | elementwise quotient into a new array |
| `FeatureExt.Ndi` | libs/ToolboxModules/featurext.py:91-102 | `_ndi` gives a new array holding the clamped normalised difference of each pixel pair |
| `FeatureExt.BandRaster` | libs/ToolboxModules/featurext.py:47-62 | a band is read from the path stored under its translated name; KeyError without a sensor |
| `FeatureExt.NdiBandNoData` | libs/ToolboxModules/featurext.py:47-69 | an index pixel is no-data exactly when either band is zero there |
| `FeatureExt.NdiBandRange` | libs/ToolboxModules/featurext.py:67-75 | every pixel of an index band is no-data or in [-1, 1] |
| `FeatureExt.IndicesRange` | libs/ToolboxModules/featurext.py:45-75 | a scene's output has three bands of the scene's size, every pixel no-data or in [-1, 1] |
| `FeatureExt.IndicesOfRange` | libs/ToolboxModules/featurext.py:67-69 | the three layers of six raw bands exist exactly when the five bands they use have the scene's size, ValueError otherwise; then each has the scene's size and every pixel is no-data or in [-1, 1] |
| `FeatureExt.IndicesFromBands` | libs/ToolboxModules/featurext.py:47-69 | with every band readable, the layers are `ndi(NIR,SWIR1)`, `ndi(NIR,RED)`, `ndi(SWIR2,BLUE)` of the rasters read |
| `FeatureExt.IndicesBandError` | libs/ToolboxModules/featurext.py:47-63 | the first band, in reading order, that cannot be read decides the error |
| `FeatureExt.OutputNameSpec` | libs/ToolboxModules/featurext.py:80-83 | the name exists exactly when tile and date are set (KeyError otherwise) and is `tile_date`, then `T` and the time when it is set, then `_NDI.tif` |
| `FeatureExt.WriteAllSpec` | libs/ToolboxModules/featurext.py:41-84 | each file written is the output of the scene at its position; an error comes from the next scene; without one every scene is written |
| `FeatureExt.InvalidKeyed` | libs/ToolboxModules/featurext.py:36 | ranking keys exist iff every scene has statistics, and pair each scene with its invalid-pixel count |
| `FeatureExt.ChosenSpec` | libs/ToolboxModules/featurext.py:27-36 | the chosen scenes are a prefix of the invalid-count order of all scenes; all of them without `ts_legth`; exactly `ts_legth` of them when it is in range |
| `FeatureExt.ChosenClearest` | libs/ToolboxModules/featurext.py:36 | a chosen scene has no more invalid pixels than any later scene, chosen or not |
| `FeatureExt.RankedSpec` | libs/ToolboxModules/featurext.py:27-36 | ranking raises KeyError exactly when a scene lacks statistics; it keeps a sub-multiset of the scenes, all of them without `ts_legth` |
| `FeatureExt.RankedOrder` | libs/ToolboxModules/featurext.py:36 | the ranked scenes come in ascending order of invalid pixels |
| `FeatureExt.RankedErrors` | libs/ToolboxModules/featurext.py:36 | `InvalidPixNum()` fails for the series exactly when a scene has no statistics, with KeyError |
| `FeatureExt.SceneOutputSpec` | libs/ToolboxModules/featurext.py:45-84 | a scene's file is named from that scene, georeferenced from the clearest scene, and holds three bounded bands |
| `FeatureExt.ExtractionSpec` | libs/ToolboxModules/featurext.py:24-84 | extraction writes the ranked scenes in order, each with the first ranked scene's georeferencing and the size of the first scene's `B04`, until the first error |
| `FeatureExt.MaskedBand` | libs/ToolboxModules/featurext.py:47-63 | a band read as float32 has its zeros turned into no-data |
| `FeatureExt.IndexLayer` | libs/ToolboxModules/featurext.py:67-69 | one layer `feature[..., k] = _ndi(b, b')` |
| `FeatureExt.IndexStack` | libs/ToolboxModules/featurext.py:45-69 | the three layers computed in place give `IndicesOf` of the six rasters |
| `FeatureExt.SceneIndices` | libs/ToolboxModules/featurext.py:45-69 | one scene's band reads and layers give `Indices`, or the first read error |
| `FeatureExt.WriteScene` | libs/ToolboxModules/featurext.py:45-84 | one iteration of the scene loop gives that scene's output or error |
| `FeatureExt.WriteScenes` | libs/ToolboxModules/featurext.py:41-84 | the scene loop computes `WriteAll`: outputs in order up to the first error |
| `FeatureExt.Extract` | libs/ToolboxModules/featurext.py:24-84 | `_feature` computes `Extraction` |
| `FeatureExt.Manager` | libs/ToolboxModules/featurext.py:8-19 | extraction runs over the default-window scenes of a truthy year only when there are some; without a year, unpacking the series fails |

## Left out

- `SATimg`, the base class of `Landsatimg`, is not part of this model. The model assumes the following about it:
  - metadata keys are absent until set;
  - `time` stays unset (`None`);
  - `date()` is the ordinal of the `date` string under `%Y%m%d`;
  - `featurepath()` is the path dictionary;
  - `super().feature` is an abstract base read (`BaseFeature`).
- `flag`, `_savemetadata` and `_loadmetadata` are left out. They are the base class's pickle cache of metadata.
- Landsatimage.LandsatImg.Populate: states the stored paths and sensor, not the tile, date and temp path it sets next. GetMetadata and GetTempPath state those, and the metadata caching step is left out.
- LandsatL2SP.ReadLandsatL2SP: states only the feature paths. The mask computation and metadata caching after `_populate` need the QA raster and the base class.
- GDAL I/O is left out, because it is a foreign library:
  - reading a band is a lookup of its path in a map of rasters;
  - `getGeoTIFFmeta` is the path the georeferencing is read from;
  - `writeGeoTIFFD` produces an `Output` value.
- Raster files and persistence are modelled as values:
  - `.npy` and `.pkl` files are maps from path to value;
  - a `.mat` file is a map from path to dictionary;
  - `check_folder` reduces to its `joinpath`, because directory creation is file-system state.
- Float32 and IEEE-754 arithmetic are left out:
  - pixels are reals, with `None` for NaN;
  - `np.errstate` is left out;
  - raster shapes are modelled as pixel counts.
- FeatureExt.IndicesOfRange: states that bands of unequal size fail, but not NumPy's broadcasting of compatible shapes.
- L2SPSeries.LandsatL2SPts.constructor: with a falsy temp path the source creates neither the scene list nor the `temppath` key, so a later `append`, `sort`, `getdays` or `len` raises AttributeError and `temppath()` raises KeyError. The model gives an empty series without a temp path instead. No call in the core reaches that case: `getyear` assigns the list at once, and `L2SPtile` replaces its placeholder series before use.
- The `resolution` metadata entry (30) that `Landsatimg` sets is left out. Only `cropdataset_E`, which is left out too, reads it.
- `print` calls and `time.time()` timing are left out, because they are output only.
- `strptime` is modelled strictly as eight digits. Python's leniency, such as a one-digit month, is left out.
- `find` returns a new list in the model. The source may return the series' own `_ts` list (an alias) when no field is truthy.
- `LandsatL2SPts.sorted` is left out, because it reads `self._list`, which is never assigned. `euclideandate` is modelled.
- `cropdataset_E` and the raster parts of `cropGeoTIFF`/`cropGeoTIFF_E` (GDAL calls, floating-point geotransforms, file deletion) are left out. Only the integer centre-square rule is modelled.
- `os.walk` is modelled as a list of (directory, sub-directory names) steps for the tile list, and as a list of file names for one scene directory.
- FeatureExt.Manager: without a year, the source unpacks the series object into three names. The model states the outcome without modelling Python's iteration protocol: TypeError from `len` of a scene when the series holds exactly three scenes, ValueError otherwise.
- The year passed to `getyear` is a string. `str(year)` is then the string itself, and `int(year)` is a parse of its decimal digits.
- The plotting, signal-processing and display code of `filemanager.py` and the `skimage` call in `rescale` are left out: they are visualisation, floating-point numerics and a foreign library.
- `main.py`, `main_dh_core.py` and `RSdatamanager/__init__.py` are not part of this model: they hold command-line, environment and parallel-execution plumbing.

## Findings

| source | as written | input that shows it | evidently intended | confidence | as-written member | corrected member |
|---|---|---|---|---|---|---|
| libs/RSdatamanager/filemanager.py:404-407 | the warning guards compare `interpolation`, already the integer order from the table, with the strings `'bilinear'` and `'bicubic'`, so they are never true | `rescale(m, 2.0, 'bilinear')` raises no warning, and neither does `rescale(m, 0.5, 'bicubic')` | compare `interpolation_type`, the name, so bilinear upscaling and bicubic downscaling raise their warnings | not executed | `FileManager.RescaleWarningNeverRaised` | `FileManager.RescaleWarnsOnDiscouraged` |
