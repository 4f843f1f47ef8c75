/** The settings the modelled modules read (the MAP_ENGINE_* values of a Django
    project), gathered into one explicit record, and the small value types
    they are built from. */
module Conf {
  import opened Common

  /** setup.ModelAPI: a layer id and the (app, model) pair its model is loaded from. */
  datatype ModelApi = ModelApi(layerId: string, appName: string, modelName: string)

  /** A Django model class, named by its app label and model name. */
  datatype ModelRef = ModelRef(appName: string, modelName: string)

  /** ModelAPI.model: apps.get_model(app_name, model_name). */
  function ApiModel(api: ModelApi): ModelRef {
    ModelRef(api.appName, api.modelName)
  }

  /** setup.Zoom, the named tuple (min, max) of a region's zoom bounds. */
  datatype Zoom = Zoom(min: int, max: int)

  /** A basemap entry of MAP_ENGINE_BASEMAPS (the attributes sources.py reads). */
  datatype Basemap = Basemap(layerId: string, kind: string, sourceId: string, format: string)

  /** A map source as sources.py constructs it: a plain source or, with
      clusterMaxZoom present, a ClusterMapSource. */
  datatype MapSource = MapSource(
    name: string,
    kind: string,
    tiles: Option<seq<string>>,
    url: Option<string>,
    clusterMaxZoom: Option<int>)

  datatype Settings = Settings(
    minZoom: int,                                // MAP_ENGINE_MIN_ZOOM
    maxZoom: int,                                // MAP_ENGINE_MAX_ZOOM
    maxDistilledZoom: int,                       // MAP_ENGINE_MAX_DISTILLED_ZOOM
    clusterZoom: int,                            // MAP_ENGINE_CLUSTER_ZOOM
    useDistilledMvts: bool,                      // MAP_ENGINE_USE_DISTILLED_MVTS
    xAtMinZ: int,                                // MAP_ENGINE_X_AT_MIN_Z
    yAtMinZ: int,                                // MAP_ENGINE_Y_AT_MIN_Z
    xOffset: int,                                // MAP_ENGINE_X_OFFSET
    yOffset: int,                                // MAP_ENGINE_Y_OFFSET
    layerStyles: map<string, map<string, Value>>, // MAP_ENGINE_LAYER_STYLES
    regions: seq<string>,                        // MAP_ENGINE_REGIONS
    zoomLevels: map<string, Zoom>,               // MAP_ENGINE_ZOOM_LEVELS
    apiMvts: seq<(string, seq<ModelApi>)>,       // MAP_ENGINE_API_MVTS, in insertion order
    apiClusters: seq<ModelApi>,                  // MAP_ENGINE_API_CLUSTERS
    basemaps: seq<Basemap>,                      // MAP_ENGINE_BASEMAPS
    tilingServiceToken: Option<string>,          // MAP_ENGINE_TILING_SERVICE_TOKEN
    sources: seq<MapSource>,                     // MAP_ENGINE_SOURCES
    layersAtStartup: seq<string>)                // MAP_ENGINE_LAYERS_AT_STARTUP

  /** The defaults of conf.py for the zoom and distilling values. */
  predicate HasConfDefaults(s: Settings) {
    && s.minZoom == 8 && s.maxZoom == 22 && s.maxDistilledZoom == 10
    && s.xAtMinZ == 136 && s.yAtMinZ == 84 && s.xOffset == 1 && s.yOffset == 1
  }
}
