/** Map sources for the maplibre frontend: vector-tile sources for every MVT
    API key (with a distilled twin when distilled tiles are in use), geojson
    sources for clusters, raster sources for satellite basemaps, and their
    concatenation. URL reversal is a parameter of the model. */
module Sources {
  import opened Common
  import opened Conf

  /** ClusterMapSource.get_source: the dict of the base class (MapSource.get_source)
      with "cluster" and "clusterMaxZoom" set and nothing else changed. */
  method ClusterGetSource(base: map<string, Value>, clusterMaxZoom: int) returns (source: map<string, Value>)
    ensures source.Keys == base.Keys + {"cluster", "clusterMaxZoom"}
    ensures source["cluster"] == Bool(true) && source["clusterMaxZoom"] == Int(clusterMaxZoom)
    ensures forall k :: k in base && k != "cluster" && k != "clusterMaxZoom" ==> source[k] == base[k]
  {
    source := base;
    source := source["cluster" := Bool(true)];
    source := source["clusterMaxZoom" := Int(clusterMaxZoom)];
  }

  // ---------------------------------------------------------------------------
  // get_static_sources

  /** The leading path of every distilled tile; the middleware answers 404s under it. */
  const DistilledMvtsPath := "/static/mvts"

  /** The tile template of the vector source of an MVT key, under the app's URL. */
  function StaticTile(appUrl: string, source: string): string {
    appUrl + source + "_mvt/{z}/{x}/{y}/"
  }

  /** The tile template of the distilled twin: a static file per tile. */
  function DistilledTile(appUrl: string, source: string): string {
    DistilledMvtsPath + appUrl + "{z}/{x}/{y}/" + source + ".mvt"
  }

  function StaticSource(appUrl: string, source: string): MapSource {
    MapSource(source, "vector", Some([StaticTile(appUrl, source)]), None, None)
  }

  function DistilledSource(appUrl: string, source: string): MapSource {
    MapSource(source + "_distilled", "vector", Some([DistilledTile(appUrl, source)]), None, None)
  }

  /** get_static_sources over the given keys of MAP_ENGINE_API_MVTS. */
  function StaticSourcesOf(s: Settings, appUrl: string, keys: seq<string>): seq<MapSource> {
    if keys == [] then []
    else
      var source := keys[|keys| - 1];
      StaticSourcesOf(s, appUrl, keys[..|keys| - 1]) + [StaticSource(appUrl, source)]
      + (if s.useDistilledMvts then [DistilledSource(appUrl, source)] else [])
  }

  /** The keys of MAP_ENGINE_API_MVTS, in order. */
  function MvtKeys(s: Settings): (keys: seq<string>)
    ensures |keys| == |s.apiMvts|
    ensures forall i :: 0 <= i < |keys| ==> keys[i] == s.apiMvts[i].0
  {
    seq(|s.apiMvts|, i requires 0 <= i < |s.apiMvts| => s.apiMvts[i].0)
  }

  /** get_static_sources; appUrl is the reversed URL of "django_mapengine:index".
      Every key of MAP_ENGINE_API_MVTS gets a source, region keys included. */
  function StaticSources(s: Settings, appUrl: string): seq<MapSource> {
    StaticSourcesOf(s, appUrl, MvtKeys(s))
  }

  /** How many sources one MVT key yields. */
  function SourcesPerKey(s: Settings): nat {
    if s.useDistilledMvts then 2 else 1
  }

  /** One vector source per key, in key order, and with distilled tiles in use
      the distilled twin of each immediately after it. */
  lemma {:induction false} StaticSourcesShape(s: Settings, appUrl: string, keys: seq<string>)
    ensures |StaticSourcesOf(s, appUrl, keys)| == SourcesPerKey(s) * |keys|
    ensures forall k :: 0 <= k < |keys| ==>
      StaticSourcesOf(s, appUrl, keys)[SourcesPerKey(s) * k] == StaticSource(appUrl, keys[k])
    ensures s.useDistilledMvts ==> forall k :: 0 <= k < |keys| ==>
      StaticSourcesOf(s, appUrl, keys)[2 * k + 1] == DistilledSource(appUrl, keys[k])
  {
    if keys != [] {
      var init := keys[..|keys| - 1];
      StaticSourcesShape(s, appUrl, init);
      var prev := StaticSourcesOf(s, appUrl, init);
      var r := StaticSourcesOf(s, appUrl, keys);
      var w := SourcesPerKey(s);
      forall k | 0 <= k < |init|
        ensures r[w * k] == StaticSource(appUrl, keys[k])
        ensures s.useDistilledMvts ==> r[2 * k + 1] == DistilledSource(appUrl, keys[k])
      {
        assert init[k] == keys[k];
        assert r[w * k] == prev[w * k];
        if s.useDistilledMvts {
          assert r[2 * k + 1] == prev[2 * k + 1];
        }
      }
    }
  }

  /** Every distilled source is served from under the distilled MVT path. */
  lemma DistilledTilesAreStatic(appUrl: string, source: string)
    ensures StartsWith(DistilledSource(appUrl, source).tiles.value[0], DistilledMvtsPath)
  {
    var tile := DistilledTile(appUrl, source);
    assert tile[..|DistilledMvtsPath|] == DistilledMvtsPath;
  }

  // ---------------------------------------------------------------------------
  // get_cluster_sources and get_satellite_sources

  /** The route name whose URL serves the geojson of a cluster. */
  function ClusterRoute(layerId: string): string {
    "django_mapengine:" + layerId + "_cluster"
  }

  /** get_cluster_sources: one geojson ClusterMapSource per cluster API, named
      by its layer id, whose URL is the reversed cluster route and whose
      cluster_max_zoom is MAP_ENGINE_CLUSTER_ZOOM. */
  function ClusterSources(s: Settings, reverse: string -> string): (r: seq<MapSource>)
    ensures |r| == |s.apiClusters|
    ensures forall i :: 0 <= i < |r| ==>
      && r[i].name == s.apiClusters[i].layerId && r[i].kind == "geojson" && r[i].tiles.None?
      && r[i].url == Some(reverse(ClusterRoute(s.apiClusters[i].layerId)))
      && r[i].clusterMaxZoom == Some(s.clusterZoom)
  {
    seq(|s.apiClusters|, i requires 0 <= i < |s.apiClusters| =>
      MapSource(s.apiClusters[i].layerId, "geojson", None, Some(reverse(ClusterRoute(s.apiClusters[i].layerId))),
                Some(s.clusterZoom)))
  }

  /** An f-string renders a missing token as "None". */
  function TokenString(token: Option<string>): string {
    if token.Some? then token.value else "None"
  }

  /** The maptiler raster tile template of a basemap. */
  function SatelliteTile(basemap: Basemap, token: Option<string>): string {
    "https://api.maptiler.com/maps/" + basemap.sourceId + "/{z}/{x}/{y}." + basemap.format + "?key=" + TokenString(token)
  }

  /** get_satellite_sources: one source per basemap, with the basemap's layer
      id and type and the single maptiler tile template. */
  function SatelliteSources(s: Settings): (r: seq<MapSource>)
    ensures |r| == |s.basemaps|
    ensures forall i :: 0 <= i < |r| ==>
      && r[i].name == s.basemaps[i].layerId && r[i].kind == s.basemaps[i].kind
      && r[i].tiles == Some([SatelliteTile(s.basemaps[i], s.tilingServiceToken)])
      && r[i].url.None? && r[i].clusterMaxZoom.None?
  {
    seq(|s.basemaps|, i requires 0 <= i < |s.basemaps| =>
      MapSource(s.basemaps[i].layerId, s.basemaps[i].kind, Some([SatelliteTile(s.basemaps[i], s.tilingServiceToken)]),
                None, None))
  }

  /** The tile template names the basemap's style and format and carries the token. */
  lemma SatelliteTileParts(basemap: Basemap, token: Option<string>)
    ensures var t := SatelliteTile(basemap, token);
      var head := "https://api.maptiler.com/maps/" + basemap.sourceId + "/";
      var tail := "?key=" + TokenString(token);
      && StartsWith(t, head) && |t| >= |tail| && t[|t| - |tail|..] == tail
  {
    var t := SatelliteTile(basemap, token);
    var head := "https://api.maptiler.com/maps/" + basemap.sourceId + "/";
    var tail := "?key=" + TokenString(token);
    var middle := "{z}/{x}/{y}." + basemap.format;
    assert t == head + middle + tail;
    assert t[..|head|] == head;
    assert t[|t| - |tail|..] == tail;
  }

  // ---------------------------------------------------------------------------
  // get_all_sources

  /** get_all_sources: satellite, static and cluster sources, then
      MAP_ENGINE_SOURCES, extended one after the other. */
  method GetAllSources(s: Settings, reverse: string -> string) returns (sources: seq<MapSource>)
    ensures var a := |s.basemaps|;
      var b := a + SourcesPerKey(s) * |s.apiMvts|;
      var c := b + |s.apiClusters|;
      && |sources| == c + |s.sources|
      && sources[..a] == SatelliteSources(s)
      && sources[a..b] == StaticSources(s, reverse("django_mapengine:index"))
      && sources[b..c] == ClusterSources(s, reverse)
      && sources[c..] == s.sources
  {
    var appUrl := reverse("django_mapengine:index");
    StaticSourcesShape(s, appUrl, MvtKeys(s));
    sources := [];
    sources := sources + SatelliteSources(s);
    sources := sources + StaticSources(s, appUrl);
    sources := sources + ClusterSources(s, reverse);
    sources := sources + s.sources;
  }
}
