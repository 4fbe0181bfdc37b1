/** Translation of vendor band aliases to canonical band identifiers. There is one alias table for
    the Landsat 8 sensor `LC08` and one for every other sensor string. */
module BandNames {
  import opened Wrappers

  /** An alias table in its dictionary order: canonical key, then the aliases that map to it. */
  type Table = seq<(string, seq<string>)>

  function Landsat8Table(): Table {
    [ ("B01", ["B1", "b1", "B01", "b01", "Coastal Aerosol", "Aerosol", "aerosol"]),
      ("B02", ["B2", "b2", "B02", "b02", "BLUE", "blue"]),
      ("B03", ["B3", "b3", "B03", "b03", "GREEN", "green"]),
      ("B04", ["B4", "b4", "B04", "b04", "RED", "red"]),
      ("B05", ["B5", "b5", "B05", "b05", "NIR", "nir"]),
      ("B06", ["B6", "b6", "B06", "b06", "SWIR1", "swir1"]),
      ("B07", ["B7", "b7", "B07", "b07", "SWIR2", "swir2"]),
      ("B08", ["B8", "b8", "B08", "b08", "Panchromatic", "panchromatic"]),
      ("B09", ["B9", "b9", "B09", "b09", "Cirrus", "cirrus"]),
      ("B10", ["B10", "b10", "TIRS1"]),
      ("NDVI", ["NDVI", "ndvi"]),
      ("RGB", ["RGB", "rgb"]),
      ("MASK", ["MASK", "mask", "Mask"]),
      ("QA_PIXEL", ["QA_PIXEL"]) ]
  }

  /** The table used for every sensor other than `LC08` (Landsat 7 band numbering). */
  function OtherSensorTable(): Table {
    [ ("B01", ["B1", "b1", "B01", "b01", "BLUE", "blue"]),
      ("B02", ["B2", "b2", "B02", "b02", "GREEN", "green"]),
      ("B03", ["B3", "b3", "B03", "b03", "RED", "red"]),
      ("B04", ["B4", "b4", "B04", "b04", "NIR", "nir"]),
      ("B05", ["B5", "b5", "B05", "b05", "SWIR1", "swir1"]),
      ("B06", ["B6", "b6", "B06", "b06", "THERMAL", "thermal"]),
      ("B07", ["B7", "b7", "B07", "b07", "SWIR2", "swir2"]),
      ("B08", ["B8", "b8", "B08", "b08", "Panchromatic", "panchromatic"]),
      ("B09", ["B9", "b9", "B09", "b09", "Cirrus", "cirrus"]),
      ("B10", ["B10", "b10", "TIRS1"]),
      ("NDVI", ["NDVI", "ndvi"]),
      ("RGB", ["RGB", "rgb"]),
      ("MASK", ["MASK", "mask", "Mask"]),
      ("QA_PIXEL", ["QA_PIXEL"]) ]
  }

  function TableFor(sensor: string): Table {
    if sensor == "LC08" then Landsat8Table() else OtherSensorTable()
  }

  /** Entry i is the first, in table order, whose alias list holds s. */
  predicate FirstIn(t: Table, i: int, s: string) {
    0 <= i < |t| && s in t[i].1 && forall j :: 0 <= j < i ==> s !in t[j].1
  }

  /** The nested-loop search: the key of the first entry whose alias list holds s, else None. */
  function Search(t: Table, s: string): Option<string>
    decreases |t|
  {
    if |t| == 0 then None
    else if s in t[0].1 then Some(t[0].0)
    else Search(t[1..], s)
  }

  /** A found key belongs to the first entry holding s; nothing is found only when no entry
      holds s. */
  lemma {:induction false} SearchResult(t: Table, s: string)
    ensures Search(t, s).Some? ==> exists i :: FirstIn(t, i, s) && t[i].0 == Search(t, s).value
    ensures Search(t, s).None? <==> forall i :: 0 <= i < |t| ==> s !in t[i].1
    decreases |t|
  {
    if |t| > 0 && s in t[0].1 {
      assert FirstIn(t, 0, s);
    } else if |t| > 0 {
      var r := Search(t[1..], s);
      SearchResult(t[1..], s);
      if r.Some? {
        var j :| FirstIn(t[1..], j, s) && t[1..][j].0 == r.value;
        assert t[j + 1] == t[1..][j];
        forall k | 0 <= k < j + 1 ensures s !in t[k].1 {
          if k > 0 {
            assert t[k] == t[1..][k - 1];
          }
        }
        assert FirstIn(t, j + 1, s);
      }
      forall i | 1 <= i < |t| ensures t[i] == t[1..][i - 1] {
      }
    }
  }

  /** The search finds exactly the first entry holding s. */
  lemma {:induction false} SearchFirst(t: Table, i: int, s: string)
    requires FirstIn(t, i, s)
    ensures Search(t, s) == Some(t[i].0)
    decreases |t|
  {
    if i > 0 {
      assert s !in t[0].1;
      assert FirstIn(t[1..], i - 1, s) by {
        forall j | 0 <= j < i - 1 ensures s !in t[1..][j].1 {
          assert t[1..][j] == t[j + 1];
        }
      }
      SearchFirst(t[1..], i - 1, s);
    }
  }

  /** `translate(s)` for the scene's sensor: the canonical key, or None for an unknown name. */
  function Translate(sensor: string, s: string): Option<string> {
    Search(TableFor(sensor), s)
  }

  /** A name translates to k exactly when the first alias list holding it is k's; a name in no
      list translates to None. */
  lemma TranslateSpec(sensor: string, s: string, k: string)
    ensures Translate(sensor, s) == Some(k) <==> exists i :: FirstIn(TableFor(sensor), i, s) && TableFor(sensor)[i].0 == k
    ensures Translate(sensor, s).None? <==> forall i :: 0 <= i < |TableFor(sensor)| ==> s !in TableFor(sensor)[i].1
  {
    SearchResult(TableFor(sensor), s);
    if i :| FirstIn(TableFor(sensor), i, s) && TableFor(sensor)[i].0 == k {
      SearchFirst(TableFor(sensor), i, s);
    }
  }

  lemma Key0First()
    ensures FirstIn(Landsat8Table(), 0, Landsat8Table()[0].0)
    ensures FirstIn(OtherSensorTable(), 0, OtherSensorTable()[0].0)
  {
  }

  lemma Key1First()
    ensures FirstIn(Landsat8Table(), 1, Landsat8Table()[1].0)
    ensures FirstIn(OtherSensorTable(), 1, OtherSensorTable()[1].0)
  {
  }

  lemma Key2First()
    ensures FirstIn(Landsat8Table(), 2, Landsat8Table()[2].0)
    ensures FirstIn(OtherSensorTable(), 2, OtherSensorTable()[2].0)
  {
  }

  lemma Key3First()
    ensures FirstIn(Landsat8Table(), 3, Landsat8Table()[3].0)
    ensures FirstIn(OtherSensorTable(), 3, OtherSensorTable()[3].0)
  {
  }

  lemma Key4First()
    ensures FirstIn(Landsat8Table(), 4, Landsat8Table()[4].0)
    ensures FirstIn(OtherSensorTable(), 4, OtherSensorTable()[4].0)
  {
  }

  lemma Key5First()
    ensures FirstIn(Landsat8Table(), 5, Landsat8Table()[5].0)
    ensures FirstIn(OtherSensorTable(), 5, OtherSensorTable()[5].0)
  {
  }

  lemma Key6First()
    ensures FirstIn(Landsat8Table(), 6, Landsat8Table()[6].0)
    ensures FirstIn(OtherSensorTable(), 6, OtherSensorTable()[6].0)
  {
  }

  lemma Key7First()
    ensures FirstIn(Landsat8Table(), 7, Landsat8Table()[7].0)
    ensures FirstIn(OtherSensorTable(), 7, OtherSensorTable()[7].0)
  {
  }

  lemma Key8First()
    ensures FirstIn(Landsat8Table(), 8, Landsat8Table()[8].0)
    ensures FirstIn(OtherSensorTable(), 8, OtherSensorTable()[8].0)
  {
  }

  lemma Key9First()
    ensures FirstIn(Landsat8Table(), 9, Landsat8Table()[9].0)
    ensures FirstIn(OtherSensorTable(), 9, OtherSensorTable()[9].0)
  {
  }

  lemma Key10First()
    ensures FirstIn(Landsat8Table(), 10, Landsat8Table()[10].0)
    ensures FirstIn(OtherSensorTable(), 10, OtherSensorTable()[10].0)
  {
  }

  lemma Key11First()
    ensures FirstIn(Landsat8Table(), 11, Landsat8Table()[11].0)
    ensures FirstIn(OtherSensorTable(), 11, OtherSensorTable()[11].0)
  {
  }

  lemma Key12First()
    ensures FirstIn(Landsat8Table(), 12, Landsat8Table()[12].0)
    ensures FirstIn(OtherSensorTable(), 12, OtherSensorTable()[12].0)
  {
  }

  lemma Key13First()
    ensures FirstIn(Landsat8Table(), 13, Landsat8Table()[13].0)
    ensures FirstIn(OtherSensorTable(), 13, OtherSensorTable()[13].0)
  {
  }

  /** No canonical key appears in an alias list before its own. */
  lemma KeysFirst(sensor: string, i: int)
    requires 0 <= i < |TableFor(sensor)|
    ensures FirstIn(TableFor(sensor), i, TableFor(sensor)[i].0)
  {
    match i
    case 0 => Key0First();
    case 1 => Key1First();
    case 2 => Key2First();
    case 3 => Key3First();
    case 4 => Key4First();
    case 5 => Key5First();
    case 6 => Key6First();
    case 7 => Key7First();
    case 8 => Key8First();
    case 9 => Key9First();
    case 10 => Key10First();
    case 11 => Key11First();
    case 12 => Key12First();
    case 13 => Key13First();
  }

  /** Every canonical key translates to itself. */
  lemma TranslateKeyFixed(sensor: string, i: int)
    requires 0 <= i < |TableFor(sensor)|
    ensures Translate(sensor, TableFor(sensor)[i].0) == Some(TableFor(sensor)[i].0)
  {
    KeysFirst(sensor, i);
    SearchFirst(TableFor(sensor), i, TableFor(sensor)[i].0);
  }

  /** Translating a translated name changes nothing. */
  lemma TranslateIdempotent(sensor: string, s: string)
    requires Translate(sensor, s).Some?
    ensures Translate(sensor, Translate(sensor, s).value) == Translate(sensor, s)
  {
    var t := TableFor(sensor);
    SearchResult(t, s);
    var i :| FirstIn(t, i, s) && t[i].0 == Translate(sensor, s).value;
    TranslateKeyFixed(sensor, i);
  }

  /** `BLUE` is band 2 on Landsat 8 and band 1 on every other sensor, known or not. */
  lemma TranslateBlue(sensor: string)
    ensures sensor == "LC08" ==> Translate(sensor, "BLUE") == Some("B02")
    ensures sensor != "LC08" ==> Translate(sensor, "BLUE") == Some("B01")
  {
    if sensor == "LC08" {
      assert FirstIn(Landsat8Table(), 1, "BLUE");
      SearchFirst(Landsat8Table(), 1, "BLUE");
    } else {
      assert FirstIn(OtherSensorTable(), 0, "BLUE");
      SearchFirst(OtherSensorTable(), 0, "BLUE");
    }
  }
}
