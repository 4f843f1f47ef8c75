/** Map layers for the maplibre frontend: the layer dict one MapLayer turns
    into, the zoom bounds of static vector-tile layers, the layers each kind of
    model layer expands to, the enumeration of region, static and cluster
    layers from the settings, and the lookup of a model API by layer id. */
module Layers {
  import opened Common
  import opened Conf
  import Distill

  /** layers.MapLayer. */
  datatype MapLayer = MapLayer(
    id: string,
    source: string,
    style: map<string, Value>,
    sourceLayer: Option<string>,
    minzoom: Option<int>,
    maxzoom: Option<int>)

  /** layers.ModelLayer (and its subclasses StaticModelLayer and ClusterModelLayer). */
  datatype ModelLayer = ModelLayer(id: string, model: ModelRef, source: string)

  // ---------------------------------------------------------------------------
  // MapLayer.get_layer

  /** The keys get_layer sets after spreading the style: "source-layer" when
      source_layer is truthy, and minzoom / maxzoom when they are truthy. */
  predicate Overrides(l: MapLayer, key: string) {
    || (key == "source-layer" && TruthyString(l.sourceLayer))
    || (key == "minzoom" && TruthyInt(l.minzoom))
    || (key == "maxzoom" && TruthyInt(l.maxzoom))
  }

  /** The value get_layer stores under an overriding key. */
  function OverrideValue(l: MapLayer, key: string): Value
    requires Overrides(l, key)
  {
    if key == "source-layer" then Str(l.sourceLayer.value)
    else if key == "minzoom" then Int(l.minzoom.value)
    else Int(l.maxzoom.value)
  }

  /** getattr(self, attr_name) for the attribute names get_layer loops over. */
  function ZoomAttr(l: MapLayer, name: string): Option<int> {
    if name == "minzoom" then l.minzoom else l.maxzoom
  }

  /** The attribute names get_layer loops over, in order. */
  const ZoomAttrNames := ["minzoom", "maxzoom"]

  /** The dict of get_layer before its loop: id and source, the style spread
      over them, and source-layer when it is truthy. */
  function BaseLayer(l: MapLayer): map<string, Value> {
    var m := map["id" := Str(l.id), "source" := Str(l.source)] + l.style;
    if TruthyString(l.sourceLayer) then m["source-layer" := Str(l.sourceLayer.value)] else m
  }

  /** One round of the loop of get_layer: the attribute, when truthy, set under its name. */
  function WithZoom(m: map<string, Value>, l: MapLayer, name: string): map<string, Value> {
    var attr := ZoomAttr(l, name);
    if TruthyInt(attr) then m[name := Int(attr.value)] else m
  }

  /** The dict of get_layer after the first n rounds of its loop. */
  function LayerAfter(l: MapLayer, n: nat): map<string, Value>
    requires n <= |ZoomAttrNames|
  {
    if n == 0 then BaseLayer(l) else WithZoom(LayerAfter(l, n - 1), l, ZoomAttrNames[n - 1])
  }

  /** What the finished dict holds under one key: the overriding keys their
      attribute, the other style keys their style value, and id and source
      the layer's own unless the style names them. */
  lemma LayerKey(l: MapLayer, k: string)
    ensures var layer := LayerAfter(l, 2);
      && (k in layer <==> k == "id" || k == "source" || k in l.style || Overrides(l, k))
      && (Overrides(l, k) ==> layer[k] == OverrideValue(l, k))
      && (k in l.style && !Overrides(l, k) ==> layer[k] == l.style[k])
      && (k == "id" && "id" !in l.style ==> layer["id"] == Str(l.id))
      && (k == "source" && "source" !in l.style ==> layer["source"] == Str(l.source))
  {
    var base := BaseLayer(l);
    var mid := WithZoom(base, l, "minzoom");
    assert LayerAfter(l, 1) == mid;
    assert LayerAfter(l, 2) == WithZoom(mid, l, "maxzoom");
  }

  /** LayerKey for every key at once. */
  lemma LayerContents(l: MapLayer)
    ensures var layer := LayerAfter(l, 2);
      && (forall k :: k in layer <==> k == "id" || k == "source" || k in l.style || Overrides(l, k))
      && (forall k :: Overrides(l, k) ==> layer[k] == OverrideValue(l, k))
      && (forall k :: k in l.style && !Overrides(l, k) ==> layer[k] == l.style[k])
      && ("id" !in l.style ==> layer["id"] == Str(l.id))
      && ("source" !in l.style ==> layer["source"] == Str(l.source))
  {
    forall k: string
      ensures var layer := LayerAfter(l, 2);
        && (k in layer <==> k == "id" || k == "source" || k in l.style || Overrides(l, k))
        && (Overrides(l, k) ==> layer[k] == OverrideValue(l, k))
        && (k in l.style && !Overrides(l, k) ==> layer[k] == l.style[k])
    {
      LayerKey(l, k);
    }
    LayerKey(l, "id");
    LayerKey(l, "source");
  }

  /** MapLayer.get_layer: id and source first, then the style spread over
      them, then source-layer and the zoom bounds where they are truthy. */
  method GetLayer(l: MapLayer) returns (layer: map<string, Value>)
    ensures forall k :: k in layer <==> k == "id" || k == "source" || k in l.style || Overrides(l, k)
    ensures forall k :: Overrides(l, k) ==> layer[k] == OverrideValue(l, k)
    ensures forall k :: k in l.style && !Overrides(l, k) ==> layer[k] == l.style[k]
    ensures "id" !in l.style ==> layer["id"] == Str(l.id)
    ensures "source" !in l.style ==> layer["source"] == Str(l.source)
  {
    layer := map["id" := Str(l.id), "source" := Str(l.source)] + l.style;
    if TruthyString(l.sourceLayer) {
      layer := layer["source-layer" := Str(l.sourceLayer.value)];
    }
    var attrNames := ZoomAttrNames;
    for i := 0 to |attrNames|
      invariant layer == LayerAfter(l, i)
    {
      var attr := ZoomAttr(l, attrNames[i]);
      if TruthyInt(attr) {
        layer := layer[attrNames[i] := Int(attr.value)];
      }
    }
    LayerContents(l);
  }

  // ---------------------------------------------------------------------------
  // StaticModelLayer.min_zoom / max_zoom

  /** StaticModelLayer.min_zoom. */
  function MinZoom(s: Settings, distill: bool): int {
    if !distill && s.useDistilledMvts then s.maxDistilledZoom + 1 else s.minZoom
  }

  /** StaticModelLayer.max_zoom. */
  function MaxZoom(s: Settings, distill: bool): int {
    if !distill then s.maxZoom else s.maxDistilledZoom + 1
  }

  /** With distilled tiles in use, the distilled layer covers exactly the
      zoom levels that are distilled, and the live layer takes over at the
      zoom where the distilled one ends; without them, the live layer starts
      at the minimal zoom. */
  lemma ZoomHandOff(s: Settings)
    ensures s.useDistilledMvts ==> MaxZoom(s, true) == MinZoom(s, false)
    ensures !s.useDistilledMvts ==> MinZoom(s, false) == s.minZoom && MaxZoom(s, false) == s.maxZoom
    ensures MinZoom(s, true) == s.minZoom && MaxZoom(s, true) == s.maxDistilledZoom + 1
    ensures forall t :: t in Distill.Coordinates(s) ==> MinZoom(s, true) <= t.2 < MaxZoom(s, true)
  {
    forall t | t in Distill.Coordinates(s)
      ensures MinZoom(s, true) <= t.2 < MaxZoom(s, true)
    {
      Distill.CoordinatesMembers(s, t);
    }
  }

  // ---------------------------------------------------------------------------
  // get_map_layers of static and cluster model layers

  /** The suffix the distilled copy of a layer and of its source carry. */
  const DistilledSuffix := "_distilled"

  /** StaticModelLayer.get_map_layers (a missing style is a KeyError). */
  function StaticMapLayers(s: Settings, ml: ModelLayer): (r: Result<seq<MapLayer>>)
    ensures r.Success? <==> ml.id in s.layerStyles
    ensures r.Success? ==>
      && |r.value| == (if s.useDistilledMvts then 2 else 1)
      && r.value[0].id == ml.id && r.value[0].source == ml.source
      && r.value[0].minzoom == Some(MinZoom(s, false)) && r.value[0].maxzoom == Some(MaxZoom(s, false))
      && forall l :: l in r.value ==> l.sourceLayer == Some(ml.id) && l.style == s.layerStyles[ml.id]
    ensures r.Success? && s.useDistilledMvts ==>
      && r.value[1].id == ml.id + DistilledSuffix
      && r.value[1].source == ml.source + DistilledSuffix
      && r.value[1].minzoom == Some(s.minZoom)
      && r.value[1].maxzoom == r.value[0].minzoom
  {
    if ml.id !in s.layerStyles then Failure(KeyError)
    else
      var style := s.layerStyles[ml.id];
      var base := MapLayer(ml.id, ml.source, style, Some(ml.id), Some(MinZoom(s, false)), Some(MaxZoom(s, false)));
      if s.useDistilledMvts then
        Success([base, MapLayer(ml.id + DistilledSuffix, ml.source + DistilledSuffix, style, Some(ml.id),
                                Some(MinZoom(s, true)), Some(MaxZoom(s, true)))])
      else
        Success([base])
  }

  /** The style keys a cluster layer needs: its id and the "_cluster" and
      "_cluster_count" variants. */
  function ClusterIds(id: string): seq<string> {
    [id, id + "_cluster", id + "_cluster_count"]
  }

  /** ClusterModelLayer.get_map_layers (a missing style is a KeyError). */
  function ClusterMapLayers(s: Settings, ml: ModelLayer): (r: Result<seq<MapLayer>>)
    ensures r.Success? <==> forall k :: k in ClusterIds(ml.id) ==> k in s.layerStyles
    ensures r.Success? ==>
      && |r.value| == 3
      && forall i :: 0 <= i < 3 ==>
        && r.value[i].id == ClusterIds(ml.id)[i]
        && r.value[i].source == ml.source
        && r.value[i].style == s.layerStyles[ClusterIds(ml.id)[i]]
        && r.value[i].sourceLayer.None? && r.value[i].minzoom.None? && r.value[i].maxzoom.None?
  {
    var ids := ClusterIds(ml.id);
    if ids[0] !in s.layerStyles || ids[1] !in s.layerStyles || ids[2] !in s.layerStyles then Failure(KeyError)
    else
      Success([MapLayer(ids[0], ml.source, s.layerStyles[ids[0]], None, None, None),
               MapLayer(ids[1], ml.source, s.layerStyles[ids[1]], None, None, None),
               MapLayer(ids[2], ml.source, s.layerStyles[ids[2]], None, None, None)])
  }

  // ---------------------------------------------------------------------------
  // get_region_layers

  /** The styles every region layer needs. */
  const RegionStyles := ["region-fill", "region-line", "region-label"]

  /** The three layers of one region: fill, outline and label. */
  function RegionTriple(s: Settings, region: string): Result<seq<MapLayer>> {
    if region !in s.zoomLevels then Failure(KeyError)
    else if RegionStyles[0] !in s.layerStyles || RegionStyles[1] !in s.layerStyles
         || RegionStyles[2] !in s.layerStyles then Failure(KeyError)
    else
      var zoom := s.zoomLevels[region];
      Success([
        MapLayer(region, region, s.layerStyles[RegionStyles[0]], Some(region), Some(zoom.min), Some(zoom.max)),
        MapLayer(region + "-line", region, s.layerStyles[RegionStyles[1]], Some(region), Some(zoom.min), Some(zoom.max)),
        MapLayer(region + "-label", region, s.layerStyles[RegionStyles[2]], Some(region + "label"),
                 Some(zoom.min), Some(zoom.max))])
  }

  /** get_region_layers over the first regions, in order. */
  function RegionLayersOf(s: Settings, regions: seq<string>): Result<seq<MapLayer>> {
    if regions == [] then Success([])
    else
      var init :- RegionLayersOf(s, regions[..|regions| - 1]);
      var last :- RegionTriple(s, regions[|regions| - 1]);
      Success(init + last)
  }

  /** get_region_layers. */
  function RegionLayers(s: Settings): Result<seq<MapLayer>> {
    RegionLayersOf(s, s.regions)
  }

  /** Region layers exist unless a region has no zoom levels or, with at
      least one region, a region style is missing. */
  lemma {:induction false} RegionLayersSucceed(s: Settings, regions: seq<string>)
    ensures RegionLayersOf(s, regions).Success? <==>
      (forall k :: 0 <= k < |regions| ==> regions[k] in s.zoomLevels)
      && (regions != [] ==> forall st :: st in RegionStyles ==> st in s.layerStyles)
    ensures RegionLayersOf(s, regions).Failure? ==> RegionLayersOf(s, regions).error == KeyError
  {
    if regions != [] {
      var init := regions[..|regions| - 1];
      RegionLayersSucceed(s, init);
      assert forall k :: 0 <= k < |init| ==> init[k] == regions[k];
    }
  }

  /** Each region contributes its three layers as one block, in the order of MAP_ENGINE_REGIONS. */
  lemma {:induction false} RegionLayersBlocks(s: Settings, regions: seq<string>)
    requires RegionLayersOf(s, regions).Success?
    ensures |RegionLayersOf(s, regions).value| == 3 * |regions|
    ensures forall k :: 0 <= k < |regions| ==>
      RegionTriple(s, regions[k]).Success? &&
      RegionLayersOf(s, regions).value[3 * k..3 * k + 3] == RegionTriple(s, regions[k]).value
  {
    if regions != [] {
      var init := regions[..|regions| - 1];
      RegionLayersBlocks(s, init);
      var prev := RegionLayersOf(s, init).value;
      var last := RegionTriple(s, regions[|init|]).value;
      var r := RegionLayersOf(s, regions).value;
      assert r == prev + last;
      forall k | 0 <= k < |regions|
        ensures RegionTriple(s, regions[k]).Success? && r[3 * k..3 * k + 3] == RegionTriple(s, regions[k]).value
      {
        if k < |init| {
          assert init[k] == regions[k];
          assert r[3 * k..3 * k + 3] == prev[3 * k..3 * k + 3];
        } else {
          assert r[3 * k..3 * k + 3] == last;
        }
      }
    }
  }

  /** Each region gives its fill, "-line" and "-label" layers in this order,
      all on the region's source and within its zoom bounds, the label layer
      reading the "label" source layer of the region. */
  lemma RegionLayersShape(s: Settings, k: nat)
    requires RegionLayers(s).Success? && k < |s.regions|
    requires s.regions[k] in s.zoomLevels  // implied by the first, see RegionLayersSucceed
    ensures var r := RegionLayers(s).value;
      var region := s.regions[k];
      var zoom := s.zoomLevels[region];
      && |r| == 3 * |s.regions|
      && r[3 * k].id == region
      && r[3 * k + 1].id == region + "-line"
      && r[3 * k + 2].id == region + "-label"
      && r[3 * k].sourceLayer == Some(region) && r[3 * k + 1].sourceLayer == Some(region)
      && r[3 * k + 2].sourceLayer == Some(region + "label")
      && forall j :: 0 <= j < 3 ==>
        && r[3 * k + j].source == region
        && r[3 * k + j].style == s.layerStyles[RegionStyles[j]]
        && r[3 * k + j].minzoom == Some(zoom.min) && r[3 * k + j].maxzoom == Some(zoom.max)
  {
    RegionLayersBlocks(s, s.regions);
    RegionLayersSucceed(s, s.regions);
    var r := RegionLayers(s).value;
    var block := r[3 * k..3 * k + 3];
    assert forall j :: 0 <= j < 3 ==> r[3 * k + j] == block[j];
  }

  // ---------------------------------------------------------------------------
  // get_static_layers and get_cluster_layers

  /** The static model layers of one MAP_ENGINE_API_MVTS entry. */
  function StaticLayersOfEntry(s: Settings, entry: (string, seq<ModelApi>)): seq<ModelLayer> {
    if entry.0 in s.regions then []
    else seq(|entry.1|, j requires 0 <= j < |entry.1| => ModelLayer(entry.1[j].layerId, ApiModel(entry.1[j]), entry.0))
  }

  /** get_static_layers over the given entries of MAP_ENGINE_API_MVTS. */
  function StaticLayersOf(s: Settings, mvts: seq<(string, seq<ModelApi>)>): seq<ModelLayer> {
    if mvts == [] then []
    else StaticLayersOf(s, mvts[..|mvts| - 1]) + StaticLayersOfEntry(s, mvts[|mvts| - 1])
  }

  /** get_static_layers: one StaticModelLayer per MVT API, in order, skipping
      the entries whose source is a region. */
  function StaticLayers(s: Settings): seq<ModelLayer> {
    StaticLayersOf(s, s.apiMvts)
  }

  /** The number of MVT APIs under the keys that are not regions. */
  function NonRegionApiCount(s: Settings, mvts: seq<(string, seq<ModelApi>)>): nat {
    if mvts == [] then 0
    else
      NonRegionApiCount(s, mvts[..|mvts| - 1])
      + (if mvts[|mvts| - 1].0 in s.regions then 0 else |mvts[|mvts| - 1].1|)
  }

  /** The static layer of some MVT API under a key that is not a region. */
  ghost predicate FromNonRegionApi(s: Settings, mvts: seq<(string, seq<ModelApi>)>, ml: ModelLayer) {
    exists k, j :: 0 <= k < |mvts| && mvts[k].0 !in s.regions && 0 <= j < |mvts[k].1|
      && ml == ModelLayer(mvts[k].1[j].layerId, ApiModel(mvts[k].1[j]), mvts[k].0)
  }

  /** Every static layer comes from an MVT API under a key that is not a region. */
  lemma {:induction false} StaticLayerSource(s: Settings, mvts: seq<(string, seq<ModelApi>)>, ml: ModelLayer)
    returns (k: nat, j: nat)
    requires ml in StaticLayersOf(s, mvts)
    ensures k < |mvts| && mvts[k].0 !in s.regions && j < |mvts[k].1|
    ensures ml == ModelLayer(mvts[k].1[j].layerId, ApiModel(mvts[k].1[j]), mvts[k].0)
  {
    var init := mvts[..|mvts| - 1];
    var last := mvts[|mvts| - 1];
    if ml in StaticLayersOf(s, init) {
      k, j := StaticLayerSource(s, init, ml);
      assert init[k] == mvts[k];
    } else {
      assert ml in StaticLayersOfEntry(s, last);
      var i :| 0 <= i < |last.1| && ml == StaticLayersOfEntry(s, last)[i];
      k, j := |mvts| - 1, i;
    }
  }

  /** Every MVT API under a key that is not a region gives a static layer. */
  lemma {:induction false} StaticLayerOfApi(s: Settings, mvts: seq<(string, seq<ModelApi>)>, k: nat, j: nat)
    requires k < |mvts| && mvts[k].0 !in s.regions && j < |mvts[k].1|
    ensures ModelLayer(mvts[k].1[j].layerId, ApiModel(mvts[k].1[j]), mvts[k].0) in StaticLayersOf(s, mvts)
  {
    var init := mvts[..|mvts| - 1];
    var last := mvts[|mvts| - 1];
    if k < |init| {
      assert init[k] == mvts[k];
      StaticLayerOfApi(s, init, k, j);
    } else {
      assert StaticLayersOfEntry(s, last)[j] == ModelLayer(last.1[j].layerId, ApiModel(last.1[j]), last.0);
    }
  }

  /** StaticLayersMembers for one model layer. */
  lemma StaticLayerMember(s: Settings, mvts: seq<(string, seq<ModelApi>)>, ml: ModelLayer)
    ensures ml in StaticLayersOf(s, mvts) <==> FromNonRegionApi(s, mvts, ml)
  {
    if ml in StaticLayersOf(s, mvts) {
      var k, j := StaticLayerSource(s, mvts, ml);
    }
    if FromNonRegionApi(s, mvts, ml) {
      var k, j :| 0 <= k < |mvts| && mvts[k].0 !in s.regions && 0 <= j < |mvts[k].1|
        && ml == ModelLayer(mvts[k].1[j].layerId, ApiModel(mvts[k].1[j]), mvts[k].0);
      StaticLayerOfApi(s, mvts, k, j);
    }
  }

  /** A static model layer is produced exactly for each MVT API under a key
      that is not a region, with that key as its source; there is one per
      such API. */
  lemma {:induction false} StaticLayersMembers(s: Settings, mvts: seq<(string, seq<ModelApi>)>)
    ensures |StaticLayersOf(s, mvts)| == NonRegionApiCount(s, mvts)
    ensures forall ml :: ml in StaticLayersOf(s, mvts) <==> FromNonRegionApi(s, mvts, ml)
  {
    if mvts != [] {
      StaticLayersMembers(s, mvts[..|mvts| - 1]);
    }
    forall ml {
      StaticLayerMember(s, mvts, ml);
    }
  }

  /** The settings of tests/test_layers.py:34-41: MAP_ENGINE_REGIONS holds the
      municipality, which is also a key of MAP_ENGINE_API_MVTS, so only the
      two APIs under "static" become static layers. */
  lemma StaticLayersExample(s: Settings)
    requires s.regions == ["municipality"]
    requires s.apiMvts == [
      ("municipality", [ModelApi("municipality", "test_app", "Municipality"),
                        ModelApi("municipalitylabel", "test_app", "Municipality")]),
      ("static", [ModelApi("wind", "test_app", "WindTurbine"), ModelApi("pvroof", "test_app", "PVRoof")])]
    ensures StaticLayers(s) == [ModelLayer("wind", ModelRef("test_app", "WindTurbine"), "static"),
                                ModelLayer("pvroof", ModelRef("test_app", "PVRoof"), "static")]
  {
    var mvts := s.apiMvts;
    assert mvts[..1][..0] == [];
    assert StaticLayersOf(s, mvts[..1]) == [] by {
      assert "municipality" in s.regions;
    }
    assert "static" !in s.regions;
    assert StaticLayersOfEntry(s, mvts[1]) == [ModelLayer("wind", ModelRef("test_app", "WindTurbine"), "static"),
                                              ModelLayer("pvroof", ModelRef("test_app", "PVRoof"), "static")];
  }

  /** get_cluster_layers: one ClusterModelLayer per cluster API, whose source is its layer id. */
  function ClusterLayers(s: Settings): (r: seq<ModelLayer>)
    ensures |r| == |s.apiClusters|
    ensures forall i :: 0 <= i < |r| ==>
      r[i].id == s.apiClusters[i].layerId && r[i].source == s.apiClusters[i].layerId
      && r[i].model == ApiModel(s.apiClusters[i])
  {
    seq(|s.apiClusters|, i requires 0 <= i < |s.apiClusters| =>
      ModelLayer(s.apiClusters[i].layerId, ApiModel(s.apiClusters[i]), s.apiClusters[i].layerId))
  }

  // ---------------------------------------------------------------------------
  // get_layer_by_id

  /** All MVT APIs, in the order of the MAP_ENGINE_API_MVTS values. */
  function MvtApis(mvts: seq<(string, seq<ModelApi>)>): seq<ModelApi> {
    if mvts == [] then [] else mvts[0].1 + MvtApis(mvts[1..])
  }

  /** The first API of the list with the given layer id, or KeyError. */
  function Lookup(apis: seq<ModelApi>, id: string): Result<ModelApi> {
    if apis == [] then Failure(KeyError)
    else if apis[0].layerId == id then Success(apis[0])
    else Lookup(apis[1..], id)
  }

  /** get_layer_by_id: the clusters are searched before the MVT APIs. */
  function LayerById(s: Settings, id: string): Result<ModelApi> {
    Lookup(s.apiClusters + MvtApis(s.apiMvts), id)
  }

  /** get_layer_by_id: a loop over the clusters, then over every MVT API,
      returning the first whose layer id matches. */
  method GetLayerById(s: Settings, id: string) returns (r: Result<ModelApi>)
    ensures r == LayerById(s, id)
  {
    var all := s.apiClusters + MvtApis(s.apiMvts);
    for i := 0 to |s.apiClusters|
      invariant Lookup(all, id) == Lookup(s.apiClusters[i..] + MvtApis(s.apiMvts), id)
    {
      assert s.apiClusters[i..] + MvtApis(s.apiMvts)
        == [s.apiClusters[i]] + (s.apiClusters[i + 1..] + MvtApis(s.apiMvts));
      if s.apiClusters[i].layerId == id {
        return Success(s.apiClusters[i]);
      }
    }
    assert s.apiClusters[|s.apiClusters|..] + MvtApis(s.apiMvts) == MvtApis(s.apiMvts[0..]);
    for i := 0 to |s.apiMvts|
      invariant Lookup(all, id) == Lookup(MvtApis(s.apiMvts[i..]), id)
    {
      var mvts := s.apiMvts[i].1;
      assert MvtApis(s.apiMvts[i..]) == mvts + MvtApis(s.apiMvts[i + 1..]) by {
        assert s.apiMvts[i..][1..] == s.apiMvts[i + 1..];
      }
      for j := 0 to |mvts|
        invariant Lookup(all, id) == Lookup(mvts[j..] + MvtApis(s.apiMvts[i + 1..]), id)
      {
        assert mvts[j..] + MvtApis(s.apiMvts[i + 1..]) == [mvts[j]] + (mvts[j + 1..] + MvtApis(s.apiMvts[i + 1..]));
        if mvts[j].layerId == id {
          return Success(mvts[j]);
        }
      }
      assert mvts[|mvts|..] + MvtApis(s.apiMvts[i + 1..]) == MvtApis(s.apiMvts[i + 1..]);
    }
    assert s.apiMvts[|s.apiMvts|..] == [];
    return Failure(KeyError);
  }

  /** Lookup finds an API exactly when one has the id, and then the first one. */
  lemma {:induction false} LookupFirst(apis: seq<ModelApi>, id: string)
    ensures Lookup(apis, id).Success? <==> exists i :: 0 <= i < |apis| && apis[i].layerId == id
    ensures Lookup(apis, id).Failure? ==> Lookup(apis, id).error == KeyError
    ensures Lookup(apis, id).Success? ==>
      exists i :: 0 <= i < |apis| && apis[i] == Lookup(apis, id).value && apis[i].layerId == id
        && forall j :: 0 <= j < i ==> apis[j].layerId != id
  {
    if apis != [] && apis[0].layerId != id {
      LookupFirst(apis[1..], id);
      if Lookup(apis, id).Success? {
        var i :| 0 <= i < |apis[1..]| && apis[1..][i] == Lookup(apis, id).value && apis[1..][i].layerId == id
          && forall j :: 0 <= j < i ==> apis[1..][j].layerId != id;
        assert apis[i + 1] == apis[1..][i];
        assert forall j :: 0 <= j < i + 1 ==> apis[j].layerId != id by {
          forall j | 0 < j < i + 1
            ensures apis[j].layerId != id
          {
            assert apis[j] == apis[1..][j - 1];
          }
        }
      } else {
        forall i | 0 <= i < |apis|
          ensures apis[i].layerId != id
        {
          if i > 0 {
            assert apis[i] == apis[1..][i - 1];
          }
        }
      }
    }
  }

  lemma {:induction false} LookupAppend(a: seq<ModelApi>, b: seq<ModelApi>, id: string)
    ensures (exists i :: 0 <= i < |a| && a[i].layerId == id) ==> Lookup(a + b, id) == Lookup(a, id)
    ensures (forall i :: 0 <= i < |a| ==> a[i].layerId != id) ==> Lookup(a + b, id) == Lookup(b, id)
  {
    if a != [] {
      assert (a + b)[1..] == a[1..] + b;
      LookupAppend(a[1..], b, id);
      if a[0].layerId != id && exists i :: 0 <= i < |a| && a[i].layerId == id {
        var i :| 0 <= i < |a| && a[i].layerId == id;
        assert a[1..][i - 1] == a[i];
      }
    } else {
      assert a + b == b;
    }
  }

  lemma {:induction false} MvtApisMembers(mvts: seq<(string, seq<ModelApi>)>, api: ModelApi)
    ensures api in MvtApis(mvts) <==> exists k :: 0 <= k < |mvts| && api in mvts[k].1
  {
    if mvts != [] {
      MvtApisMembers(mvts[1..], api);
      if api in MvtApis(mvts[1..]) {
        var k :| 0 <= k < |mvts[1..]| && api in mvts[1..][k].1;
        assert mvts[k + 1] == mvts[1..][k];
      }
      if exists k :: 0 <= k < |mvts| && api in mvts[k].1 {
        var k :| 0 <= k < |mvts| && api in mvts[k].1;
        if k > 0 {
          assert mvts[1..][k - 1] == mvts[k];
        }
      }
    }
  }

  /** get_layer_by_id returns the first cluster API with the id when there is
      one; otherwise the first MVT API with the id; and KeyError when no API
      of either kind has it. */
  lemma LayerByIdPrecedence(s: Settings, id: string)
    ensures LayerById(s, id).Success? ==> LayerById(s, id).value.layerId == id
    ensures (exists i :: 0 <= i < |s.apiClusters| && s.apiClusters[i].layerId == id) ==>
      && LayerById(s, id) == Lookup(s.apiClusters, id)
      && LayerById(s, id).Success? && LayerById(s, id).value in s.apiClusters
    ensures (forall i :: 0 <= i < |s.apiClusters| ==> s.apiClusters[i].layerId != id) ==>
      LayerById(s, id) == Lookup(MvtApis(s.apiMvts), id)
    ensures LayerById(s, id).Failure? <==>
      && (forall c :: c in s.apiClusters ==> c.layerId != id)
      && (forall k, a :: 0 <= k < |s.apiMvts| && a in s.apiMvts[k].1 ==> a.layerId != id)
    ensures LayerById(s, id).Failure? ==> LayerById(s, id).error == KeyError
  {
    var all := s.apiClusters + MvtApis(s.apiMvts);
    LookupAppend(s.apiClusters, MvtApis(s.apiMvts), id);
    LookupFirst(all, id);
    LookupFirst(s.apiClusters, id);
    if LayerById(s, id).Failure? {
      forall k, a | 0 <= k < |s.apiMvts| && a in s.apiMvts[k].1
        ensures a.layerId != id
      {
        MvtApisMembers(s.apiMvts, a);
        var i :| 0 <= i < |MvtApis(s.apiMvts)| && MvtApis(s.apiMvts)[i] == a;
        assert all[|s.apiClusters| + i] == a;
      }
    } else {
      var i :| 0 <= i < |all| && all[i].layerId == id;
      if i >= |s.apiClusters| {
        var a := MvtApis(s.apiMvts)[i - |s.apiClusters|];
        assert a == all[i];
        MvtApisMembers(s.apiMvts, a);
      } else {
        assert s.apiClusters[i] in s.apiClusters;
      }
    }
  }

  // ---------------------------------------------------------------------------
  // get_all_layers

  /** get_map_layers of the first static model layers, concatenated. */
  function StaticMapLayersOf(s: Settings, mls: seq<ModelLayer>): Result<seq<MapLayer>> {
    if mls == [] then Success([])
    else
      var init :- StaticMapLayersOf(s, mls[..|mls| - 1]);
      var last :- StaticMapLayers(s, mls[|mls| - 1]);
      Success(init + last)
  }

  /** get_map_layers of the first cluster model layers, concatenated. */
  function ClusterMapLayersOf(s: Settings, mls: seq<ModelLayer>): Result<seq<MapLayer>> {
    if mls == [] then Success([])
    else
      var init :- ClusterMapLayersOf(s, mls[..|mls| - 1]);
      var last :- ClusterMapLayers(s, mls[|mls| - 1]);
      Success(init + last)
  }

  /** get_all_layers: region layers, then static layers, then cluster layers. */
  function AllLayers(s: Settings): Result<seq<MapLayer>> {
    var regions :- RegionLayers(s);
    var statics :- StaticMapLayersOf(s, StaticLayers(s));
    var clusters :- ClusterMapLayersOf(s, ClusterLayers(s));
    Success(regions + statics + clusters)
  }

  lemma {:induction false} StaticMapLayersFailureStays(s: Settings, mls: seq<ModelLayer>, i: nat)
    requires i <= |mls|
    requires StaticMapLayersOf(s, mls[..i]).Failure?
    ensures StaticMapLayersOf(s, mls) == StaticMapLayersOf(s, mls[..i])
  {
    if i < |mls| {
      assert mls[..|mls| - 1][..i] == mls[..i];
      StaticMapLayersFailureStays(s, mls[..|mls| - 1], i);
    } else {
      assert mls[..i] == mls;
    }
  }

  lemma {:induction false} ClusterMapLayersFailureStays(s: Settings, mls: seq<ModelLayer>, i: nat)
    requires i <= |mls|
    requires ClusterMapLayersOf(s, mls[..i]).Failure?
    ensures ClusterMapLayersOf(s, mls) == ClusterMapLayersOf(s, mls[..i])
  {
    if i < |mls| {
      assert mls[..|mls| - 1][..i] == mls[..i];
      ClusterMapLayersFailureStays(s, mls[..|mls| - 1], i);
    } else {
      assert mls[..i] == mls;
    }
  }

  /** One more static layer: its map layers appended, or its error. */
  lemma StaticMapLayersStep(s: Settings, mls: seq<ModelLayer>, i: nat)
    requires i < |mls| && StaticMapLayersOf(s, mls[..i]).Success?
    ensures StaticMapLayers(s, mls[i]).Failure? ==>
      StaticMapLayersOf(s, mls[..i + 1]) == Failure(StaticMapLayers(s, mls[i]).error)
    ensures StaticMapLayers(s, mls[i]).Success? ==>
      StaticMapLayersOf(s, mls[..i + 1]) == Success(StaticMapLayersOf(s, mls[..i]).value + StaticMapLayers(s, mls[i]).value)
  {
    assert mls[..i + 1][..i] == mls[..i];
  }

  /** One more cluster layer: its map layers appended, or its error. */
  lemma ClusterMapLayersStep(s: Settings, mls: seq<ModelLayer>, i: nat)
    requires i < |mls| && ClusterMapLayersOf(s, mls[..i]).Success?
    ensures ClusterMapLayers(s, mls[i]).Failure? ==>
      ClusterMapLayersOf(s, mls[..i + 1]) == Failure(ClusterMapLayers(s, mls[i]).error)
    ensures ClusterMapLayers(s, mls[i]).Success? ==>
      ClusterMapLayersOf(s, mls[..i + 1]) == Success(ClusterMapLayersOf(s, mls[..i]).value + ClusterMapLayers(s, mls[i]).value)
  {
    assert mls[..i + 1][..i] == mls[..i];
  }

  /** The loop of get_all_layers over the static layers: extends the list
      by the map layers of each. */
  method ExtendStatic(s: Settings, layers: seq<MapLayer>, statics: seq<ModelLayer>)
    returns (r: Result<seq<MapLayer>>)
    ensures StaticMapLayersOf(s, statics).Failure? ==> r == Failure(StaticMapLayersOf(s, statics).error)
    ensures StaticMapLayersOf(s, statics).Success? ==> r == Success(layers + StaticMapLayersOf(s, statics).value)
  {
    var extended := layers;
    for i := 0 to |statics|
      invariant StaticMapLayersOf(s, statics[..i]).Success?
      invariant extended == layers + StaticMapLayersOf(s, statics[..i]).value
    {
      var mapLayers := StaticMapLayers(s, statics[i]);
      StaticMapLayersStep(s, statics, i);
      if mapLayers.Failure? {
        StaticMapLayersFailureStays(s, statics, i + 1);
        return Failure(mapLayers.error);
      }
      extended := extended + mapLayers.value;
    }
    assert statics[..|statics|] == statics;
    return Success(extended);
  }

  /** The loop of get_all_layers over the cluster layers. */
  method ExtendCluster(s: Settings, layers: seq<MapLayer>, clusters: seq<ModelLayer>)
    returns (r: Result<seq<MapLayer>>)
    ensures ClusterMapLayersOf(s, clusters).Failure? ==> r == Failure(ClusterMapLayersOf(s, clusters).error)
    ensures ClusterMapLayersOf(s, clusters).Success? ==> r == Success(layers + ClusterMapLayersOf(s, clusters).value)
  {
    var extended := layers;
    for i := 0 to |clusters|
      invariant ClusterMapLayersOf(s, clusters[..i]).Success?
      invariant extended == layers + ClusterMapLayersOf(s, clusters[..i]).value
    {
      var mapLayers := ClusterMapLayers(s, clusters[i]);
      ClusterMapLayersStep(s, clusters, i);
      if mapLayers.Failure? {
        ClusterMapLayersFailureStays(s, clusters, i + 1);
        return Failure(mapLayers.error);
      }
      extended := extended + mapLayers.value;
    }
    assert clusters[..|clusters|] == clusters;
    return Success(extended);
  }

  /** get_all_layers: the region layers, extended by the map layers of every
      static layer and then of every cluster layer. */
  method GetAllLayers(s: Settings) returns (r: Result<seq<MapLayer>>)
    ensures r == AllLayers(s)
  {
    var regionLayers := RegionLayers(s);
    if regionLayers.Failure? {
      return Failure(regionLayers.error);
    }
    var withStatics := ExtendStatic(s, regionLayers.value, StaticLayers(s));
    if withStatics.Failure? {
      return withStatics;
    }
    r := ExtendCluster(s, withStatics.value, ClusterLayers(s));
  }

  lemma {:induction false} StaticMapLayersLength(s: Settings, mls: seq<ModelLayer>)
    requires StaticMapLayersOf(s, mls).Success?
    ensures |StaticMapLayersOf(s, mls).value| == (if s.useDistilledMvts then 2 else 1) * |mls|
  {
    if mls != [] {
      StaticMapLayersLength(s, mls[..|mls| - 1]);
    }
  }

  lemma {:induction false} ClusterMapLayersLength(s: Settings, mls: seq<ModelLayer>)
    requires ClusterMapLayersOf(s, mls).Success?
    ensures |ClusterMapLayersOf(s, mls).value| == 3 * |mls|
  {
    if mls != [] {
      ClusterMapLayersLength(s, mls[..|mls| - 1]);
    }
  }

  /** All layers: three per region first, then one or two per static layer,
      then three per cluster, so that cluster layers are drawn on top. */
  lemma AllLayersCount(s: Settings)
    requires AllLayers(s).Success?
    ensures var r := AllLayers(s).value;
      var nRegions := 3 * |s.regions|;
      var nStatics := (if s.useDistilledMvts then 2 else 1) * |StaticLayers(s)|;
      && |r| == nRegions + nStatics + 3 * |s.apiClusters|
      && r[..nRegions] == RegionLayers(s).value
      && r[nRegions..nRegions + nStatics] == StaticMapLayersOf(s, StaticLayers(s)).value
      && r[nRegions + nStatics..] == ClusterMapLayersOf(s, ClusterLayers(s)).value
  {
    RegionLayersBlocks(s, s.regions);
    StaticMapLayersLength(s, StaticLayers(s));
    ClusterMapLayersLength(s, ClusterLayers(s));
  }
}
