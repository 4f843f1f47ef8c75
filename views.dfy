/** The data MapEngineMixin hands to the frontend's cold store: the layers
    shown at startup, and the choropleth and popup entries, which come from
    the settings or, when a map-layer model is configured, from its rows. */
module Views {
  import opened Common
  import opened Conf

  /** A popup entry of the store, as popup.js reads it. */
  datatype PopupEntry = PopupEntry(layerId: string, atDefaultLayer: bool, choropleths: Option<seq<string>>)

  /** A row of the choropleth query: identifier, geom_layer, choropleth_unit, name. */
  datatype ChoroplethRow = ChoroplethRow(identifier: string, geomLayer: string, unit: string, name: string)

  /** A row of the popup query: identifier, geom_layer. */
  datatype PopupRow = PopupRow(identifier: string, geomLayer: string)

  /** mapengine_layers_at_startup: MAP_ENGINE_LAYERS_AT_STARTUP followed by MAP_ENGINE_REGIONS. */
  function StartupLayers(s: Settings): (r: seq<string>)
    ensures |r| == |s.layersAtStartup| + |s.regions|
    ensures r[..|s.layersAtStartup|] == s.layersAtStartup && r[|s.layersAtStartup|..] == s.regions
    ensures forall l :: l in r <==> l in s.layersAtStartup || l in s.regions
  {
    s.layersAtStartup + s.regions
  }

  // ---------------------------------------------------------------------------
  // Dict comprehensions

  /** A dict comprehension {key: value for ...} over the pairs, in order. */
  function ToMap<V>(pairs: seq<(string, V)>): map<string, V> {
    if pairs == [] then map[]
    else ToMap(pairs[..|pairs| - 1])[pairs[|pairs| - 1].0 := pairs[|pairs| - 1].1]
  }

  /** A key of the dict holds the value of the last pair carrying it. */
  lemma {:induction false} ToMapLast<V>(pairs: seq<(string, V)>, k: string) returns (i: nat)
    requires k in ToMap(pairs)
    ensures i < |pairs| && pairs[i].0 == k && ToMap(pairs)[k] == pairs[i].1
    ensures forall j :: i < j < |pairs| ==> pairs[j].0 != k
  {
    var n := |pairs| - 1;
    var init := pairs[..n];
    if pairs[n].0 == k {
      i := n;
    } else {
      i := ToMapLast(init, k);
      assert init[i] == pairs[i];
      assert forall j :: i < j < n ==> init[j] == pairs[j];
    }
  }

  /** The key of every pair is a key of the dict. */
  lemma {:induction false} ToMapHas<V>(pairs: seq<(string, V)>, i: nat)
    requires i < |pairs|
    ensures pairs[i].0 in ToMap(pairs)
  {
    var n := |pairs| - 1;
    if i < n {
      assert pairs[..n][i] == pairs[i];
      ToMapHas(pairs[..n], i);
    }
  }

  /** The keys of the dict are the keys of the pairs, and a key repeated in
      later pairs holds the value of the last of them. */
  lemma ToMapLastWins<V>(pairs: seq<(string, V)>, k: string)
    ensures k in ToMap(pairs) <==> exists i :: 0 <= i < |pairs| && pairs[i].0 == k
    ensures k in ToMap(pairs) ==>
      exists i :: 0 <= i < |pairs| && pairs[i].0 == k && ToMap(pairs)[k] == pairs[i].1
        && forall j :: i < j < |pairs| ==> pairs[j].0 != k
  {
    if k in ToMap(pairs) {
      var i := ToMapLast(pairs, k);
    }
    if exists i :: 0 <= i < |pairs| && pairs[i].0 == k {
      var i :| 0 <= i < |pairs| && pairs[i].0 == k;
      ToMapHas(pairs, i);
    }
  }

  /** The store entry of a choropleth row. */
  function ChoroplethEntry(row: ChoroplethRow): Value {
    Obj(map[
      "layers" := Arr([Str(row.geomLayer)]),
      "useFeatureState" := Bool(true),
      "unit" := Arr([Str(row.unit)]),
      "title" := Arr([Str(row.name)])])
  }

  /** The choropleths of the store built from the rows of the map-layer model. */
  function ChoroplethStore(rows: seq<ChoroplethRow>): map<string, Value> {
    ToMap(seq(|rows|, i requires 0 <= i < |rows| => (rows[i].identifier, ChoroplethEntry(rows[i]))))
  }

  /** Every row's identifier is a key, and it maps to the entry of the last
      row carrying it. */
  lemma ChoroplethStoreLastWins(rows: seq<ChoroplethRow>, id: string)
    ensures id in ChoroplethStore(rows) <==> exists i :: 0 <= i < |rows| && rows[i].identifier == id
    ensures id in ChoroplethStore(rows) ==>
      exists i :: 0 <= i < |rows| && rows[i].identifier == id && ChoroplethStore(rows)[id] == ChoroplethEntry(rows[i])
        && forall j :: i < j < |rows| ==> rows[j].identifier != id
  {
    var pairs := seq(|rows|, i requires 0 <= i < |rows| => (rows[i].identifier, ChoroplethEntry(rows[i])));
    ToMapLastWins(pairs, id);
    assert forall i :: 0 <= i < |rows| ==> pairs[i].0 == rows[i].identifier && pairs[i].1 == ChoroplethEntry(rows[i]);
    if id in ChoroplethStore(rows) {
      var i :| 0 <= i < |pairs| && pairs[i].0 == id && ToMap(pairs)[id] == pairs[i].1
        && forall j :: i < j < |pairs| ==> pairs[j].0 != id;
      assert rows[i].identifier == id && ChoroplethStore(rows)[id] == ChoroplethEntry(rows[i]);
    } else {
      assert forall i :: 0 <= i < |rows| ==> rows[i].identifier != id;
    }
  }

  // ---------------------------------------------------------------------------
  // Popup grouping

  /** The choropleths an entry lists (none for a null list). */
  function Listed(e: PopupEntry): seq<string> {
    if e.choropleths.Some? then e.choropleths.value else []
  }

  /** The popup grouping of the first rows. */
  function PopupGroups(rows: seq<PopupRow>): map<string, PopupEntry> {
    if rows == [] then map[]
    else
      var m := PopupGroups(rows[..|rows| - 1]);
      var row := rows[|rows| - 1];
      var entry := if row.geomLayer in m then m[row.geomLayer] else PopupEntry(row.geomLayer, false, Some([]));
      m[row.geomLayer := entry.(choropleths := Some(Listed(entry) + [row.identifier]))]
  }

  /** The popup grouping loop: one entry per layer, created on its first row,
      to whose choropleths every row appends its identifier. */
  method GroupPopups(rows: seq<PopupRow>) returns (transformed: map<string, PopupEntry>)
    ensures transformed == PopupGroups(rows)
  {
    transformed := map[];
    for i := 0 to |rows|
      invariant transformed == PopupGroups(rows[..i])
    {
      assert rows[..i + 1][..i] == rows[..i];
      var layerId := rows[i].geomLayer;
      var choropleth := rows[i].identifier;
      if layerId !in transformed {
        transformed := transformed[layerId := PopupEntry(layerId, false, Some([]))];
      }
      var entry := transformed[layerId];
      transformed := transformed[layerId := entry.(choropleths := Some(Listed(entry) + [choropleth]))];
    }
    assert rows[..|rows|] == rows;
  }

  /** The identifiers of the rows of a layer, in row order. */
  function IdsOf(rows: seq<PopupRow>, layer: string): seq<string> {
    if rows == [] then []
    else
      IdsOf(rows[..|rows| - 1], layer)
      + (if rows[|rows| - 1].geomLayer == layer then [rows[|rows| - 1].identifier] else [])
  }

  /** A layer's list holds exactly the identifiers of its rows. */
  lemma {:induction false} IdsOfMembers(rows: seq<PopupRow>, layer: string, id: string)
    ensures id in IdsOf(rows, layer) <==>
      exists i :: 0 <= i < |rows| && rows[i].geomLayer == layer && rows[i].identifier == id
  {
    if rows != [] {
      var init := rows[..|rows| - 1];
      IdsOfMembers(init, layer, id);
      assert forall i :: 0 <= i < |init| ==> init[i] == rows[i];
      if exists i :: 0 <= i < |rows| && rows[i].geomLayer == layer && rows[i].identifier == id {
        var i :| 0 <= i < |rows| && rows[i].geomLayer == layer && rows[i].identifier == id;
        if i < |init| {
          assert init[i].geomLayer == layer && init[i].identifier == id;
        }
      }
    }
  }

  /** PopupGroupsShape for one layer. */
  lemma {:induction false} PopupGroupOf(rows: seq<PopupRow>, l: string)
    ensures l in PopupGroups(rows) <==> exists i :: 0 <= i < |rows| && rows[i].geomLayer == l
    ensures l in PopupGroups(rows) ==> PopupGroups(rows)[l] == PopupEntry(l, false, Some(IdsOf(rows, l)))
  {
    if rows != [] {
      var init := rows[..|rows| - 1];
      var row := rows[|init|];
      var m := PopupGroups(init);
      PopupGroupOf(init, l);
      if l == row.geomLayer {
        var entry := if l in m then m[l] else PopupEntry(l, false, Some([]));
        if l !in m {
          IdsOfAbsent(init, l);
        }
        assert entry == PopupEntry(l, false, Some(IdsOf(init, l)));
        assert IdsOf(rows, l) == IdsOf(init, l) + [row.identifier];
        assert PopupGroups(rows)[l] == entry.(choropleths := Some(Listed(entry) + [row.identifier]));
        assert rows[|init|].geomLayer == l;
      } else {
        assert PopupGroups(rows) == m[row.geomLayer := PopupGroups(rows)[row.geomLayer]];
        assert IdsOf(rows, l) == IdsOf(init, l);
        if l in m {
          var i :| 0 <= i < |init| && init[i].geomLayer == l;
          assert rows[i] == init[i];
        }
        if exists i :: 0 <= i < |rows| && rows[i].geomLayer == l {
          var i :| 0 <= i < |rows| && rows[i].geomLayer == l;
          assert i < |init| && init[i] == rows[i];
        }
      }
    }
  }

  /** One entry per distinct layer of the rows, keyed by that layer, not
      shown at the default layer, listing the identifiers of the layer's
      rows in row order. */
  lemma PopupGroupsShape(rows: seq<PopupRow>)
    ensures forall l :: l in PopupGroups(rows) <==> exists i :: 0 <= i < |rows| && rows[i].geomLayer == l
    ensures forall l :: l in PopupGroups(rows) ==> PopupGroups(rows)[l] == PopupEntry(l, false, Some(IdsOf(rows, l)))
  {
    forall l {
      PopupGroupOf(rows, l);
    }
  }

  lemma {:induction false} IdsOfAbsent(rows: seq<PopupRow>, layer: string)
    requires forall i :: 0 <= i < |rows| ==> rows[i].geomLayer != layer
    ensures IdsOf(rows, layer) == []
  {
    if rows != [] {
      IdsOfAbsent(rows[..|rows| - 1], layer);
    }
  }

  /** The distinct layers of the rows, in order of first appearance. */
  function DistinctLayers(rows: seq<PopupRow>): seq<string> {
    if rows == [] then []
    else
      var d := DistinctLayers(rows[..|rows| - 1]);
      if rows[|rows| - 1].geomLayer in d then d else d + [rows[|rows| - 1].geomLayer]
  }

  predicate NoDuplicates(ls: seq<string>) {
    forall i, j :: 0 <= i < j < |ls| ==> ls[i] != ls[j]
  }

  lemma {:induction false} DistinctLayersMembers(rows: seq<PopupRow>)
    ensures NoDuplicates(DistinctLayers(rows))
    ensures forall l :: l in DistinctLayers(rows) <==> exists i :: 0 <= i < |rows| && rows[i].geomLayer == l
  {
    if rows != [] {
      var init := rows[..|rows| - 1];
      DistinctLayersMembers(init);
      assert forall i :: 0 <= i < |init| ==> init[i] == rows[i];
    }
  }

  /** The total length of the identifier lists of the given layers. */
  function SumIds(rows: seq<PopupRow>, ls: seq<string>): nat {
    if ls == [] then 0 else SumIds(rows, ls[..|ls| - 1]) + |IdsOf(rows, ls[|ls| - 1])|
  }

  lemma {:induction false} SumIdsSnocRow(rows: seq<PopupRow>, row: PopupRow, ls: seq<string>)
    requires NoDuplicates(ls)
    ensures SumIds(rows + [row], ls) == SumIds(rows, ls) + (if row.geomLayer in ls then 1 else 0)
  {
    assert (rows + [row])[..|rows|] == rows;
    if ls != [] {
      var init := ls[..|ls| - 1];
      assert forall i :: 0 <= i < |init| ==> init[i] == ls[i];
      assert NoDuplicates(init);
      SumIdsSnocRow(rows, row, init);
      assert row.geomLayer in ls <==> row.geomLayer in init || row.geomLayer == ls[|init|];
      assert ls[|init|] !in init;
    }
  }

  /** The identifier lists of the distinct layers hold every row exactly once. */
  lemma {:induction false} GroupSizesSumToRows(rows: seq<PopupRow>)
    ensures SumIds(rows, DistinctLayers(rows)) == |rows|
  {
    if rows != [] {
      var init := rows[..|rows| - 1];
      var row := rows[|init|];
      assert rows == init + [row];
      GroupSizesSumToRows(init);
      DistinctLayersMembers(init);
      var d := DistinctLayers(init);
      SumIdsSnocRow(init, row, d);
      if row.geomLayer !in d {
        IdsOfAbsent(init, row.geomLayer);
        assert SumIds(rows, d + [row.geomLayer]) == SumIds(rows, d) + |IdsOf(rows, row.geomLayer)| by {
          assert (d + [row.geomLayer])[..|d|] == d;
        }
      }
    }
  }

  /** The popups of the store built from the rows: one entry per distinct
      layer, and the entries' choropleth lists together as long as the rows. */
  lemma PopupGroupsPartition(rows: seq<PopupRow>)
    ensures var m := PopupGroups(rows);
      var ls := DistinctLayers(rows);
      && NoDuplicates(ls)
      && (forall l :: l in m <==> l in ls)
      && (forall l :: l in m ==> m[l].choropleths == Some(IdsOf(rows, l)))
      && SumIds(rows, ls) == |rows|
  {
    PopupGroupsShape(rows);
    DistinctLayersMembers(rows);
    GroupSizesSumToRows(rows);
  }

  // ---------------------------------------------------------------------------
  // The cold store

  /** The settings the store reads besides the shared ones: MAP_ENGINE_DEBUG,
      MAP_ENGINE_POPUPS and MAP_ENGINE_CHOROPLETHS as (key, as_dict()) pairs,
      and MAP_ENGINE_MAPLAYER_MODEL. */
  datatype StoreSettings = StoreSettings(
    debugMode: bool,
    popups: seq<(string, PopupEntry)>,
    choropleths: seq<(string, Value)>,
    mapLayerModel: Option<string>)

  /** The rows the two queries over the map-layer model return. */
  datatype MapLayerRows = MapLayerRows(choropleths: seq<ChoroplethRow>, popups: seq<PopupRow>)

  /** mapengine_store_cold_init. */
  datatype ColdStore = ColdStore(
    debugMode: bool,
    popups: map<string, PopupEntry>,
    regions: seq<string>,
    resultViews: map<string, Value>,
    zoomLevels: map<string, Zoom>,
    choropleths: map<string, Value>)

  /** The store of get_context_data: built from the settings, then, with a
      map-layer model configured, its choropleths and popups replaced
      wholesale by those built from the model's rows. */
  method BuildStore(s: Settings, vs: StoreSettings, rows: MapLayerRows) returns (store: ColdStore)
    ensures store.debugMode == vs.debugMode && store.regions == s.regions
    ensures store.resultViews == map[] && store.zoomLevels == s.zoomLevels
    ensures TruthyString(vs.mapLayerModel) ==>
      store.choropleths == ChoroplethStore(rows.choropleths) && store.popups == PopupGroups(rows.popups)
    ensures !TruthyString(vs.mapLayerModel) ==>
      store.choropleths == ToMap(vs.choropleths) && store.popups == ToMap(vs.popups)
  {
    store := ColdStore(vs.debugMode, ToMap(vs.popups), s.regions, map[], s.zoomLevels, ToMap(vs.choropleths));
    if TruthyString(vs.mapLayerModel) {
      store := store.(choropleths := ChoroplethStore(rows.choropleths));
      var transformedPopups := GroupPopups(rows.popups);
      store := store.(popups := transformedPopups);
    }
  }
}
