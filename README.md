# django-mapengine in Dafny

This project models the computational core of django-mapengine. That package
turns a Django project's map settings into what a maplibre frontend reads:
layers, sources, choropleth colour ramps, legend entries and the cold store.
It also holds the frontend's store and popup rules. One Dafny module
corresponds to each source file:

| module | source | flavour in the model |
|---|---|---|
| `Common` | shared | Option/Result, Python errors as values, JSON and JavaScript values, truthiness |
| `Conf` | `django_mapengine/conf.py`, `setup.py` | the settings as one record, the setup value types |
| `Choropleth` | `django_mapengine/choropleth.py` | limits and steps as functions; `get_fill_color` and `get_static_styles` as methods proved against them |
| `Distill` | `django_mapengine/distill.py` | the triple loop of tile coordinates as a method proved against a recursive definition |
| `Layers` | `django_mapengine/layers.py` | the generators as functions over sequences; `get_layer`, `get_layer_by_id` and `get_all_layers` as loop methods |
| `Sources` | `django_mapengine/sources.py` | source generators as functions; `get_all_sources` and `ClusterMapSource.get_source` as methods |
| `Utils` | `django_mapengine/utils.py` | `get_color` and `get_layer_setups` as loop methods, with `itertools.product` as a function |
| `Legend` | `django_mapengine/legend.py` | pure precedence rules |
| `Views` | `django_mapengine/views.py` | the cold store: dict comprehensions, the popup grouping loop, the model branch |
| `Registry` | `django_mapengine/registry.py` | a class whose dict `register` updates in place |
| `Middleware` | `django_mapengine/middleware.py` | the 404 to 204 rule as a function of the inner handler |
| `Store` | `django_mapengine/static/django_mapengine/js/store.js` | a class whose `set` updates `hot` and logs publications |
| `Popup` | `django_mapengine/static/django_mapengine/js/popup.js` | `checkPop`, the lookup key, coordinates, and the list loop |

Django settings become a `Conf.Settings` parameter. The URL reversal of
`reverse_lazy` and the colorbrewer palette table become parameters too
(`reverse: string -> string`, `palettes`). The queries over the map-layer
model become sequences of rows.

Where the code and its documentation disagree, the model follows the code:

- The lower limit of a number in (0, 1) is `int(n * 10 / 10)`, which is 0, and the
  upper limit is `ceil(n * 10 / 10)`, which is 1. They are not 0.7 and 0.8 for 0.73
  (`Choropleth.LimitExamples`).
- The fill colour expression starts with `"interpolate-hcl"`, not `"interpolate"`.
- The dynamic ramp has `num_colors + 1` breakpoints, the last being the upper limit
  (`Choropleth.DynamicExample`: 10, 75, 140, 205, 270, 335, 400 for the sample
  10, 40, 50, 310).
- Static sources are made for every key of `MAP_ENGINE_API_MVTS`, region keys included.
  Static model layers skip the region keys.

## Model

| member | source | states |
|---|---|---|
| Choropleth.GetConfig | django_mapengine/choropleth.py:36-54 | the configuration of a known name, the default otherwise; `UnknownNameHasNoStaticStyle` and `UnknownNameDynamic` state what the default gives |
| Choropleth.Digits | django_mapengine/choropleth.py:188 | `int(math.log10(n))` for n >= 1 as the exact d with 10^d <= n < 10^(d+1) |
| Choropleth.Trunc | django_mapengine/choropleth.py:184-189 | Python `int()` on a number truncates toward zero |
| Choropleth.Ceil | django_mapengine/choropleth.py:212-215 | `math.ceil` gives the least integer not below its argument |
| Choropleth.LowerLimit | django_mapengine/choropleth.py:183-190 | 0 maps to 0 and (0, 1) to 0; for n >= 1 the result is a multiple of 10^digits, between 10^digits and 9 * 10^digits, and at most n with n below the next multiple |
| Choropleth.UpperLimit | django_mapengine/choropleth.py:211-216 | (0, 1] maps to 1; for n > 1 the result is a multiple of 10^digits, at least n, and less than one 10^digits above n |
| Choropleth.Min | django_mapengine/choropleth.py:95-98 | `min(values)` belongs to the sample and bounds it from below |
| Choropleth.Max | django_mapengine/choropleth.py:95-99 | `max(values)` belongs to the sample and bounds it from above |
| Choropleth.CalculateSteps | django_mapengine/choropleth.py:94-110 | static values when no sample is given, otherwise ChoroplethError for a negative minimum or a non-positive maximum, KeyError without `num_colors`, else the evenly spaced steps between the limits |
| Choropleth.StepSize | django_mapengine/choropleth.py:155-161 | `num` steps of the returned size span exactly from the minimum to the maximum |
| Choropleth.DynamicStepsShape | django_mapengine/choropleth.py:104-105 | num + 1 steps from lo to exactly hi, step i at lo + i * (hi - lo) / num, non-decreasing when lo <= hi |
| Choropleth.DynamicStepsBracketValues | django_mapengine/choropleth.py:94-105 | a non-empty sample with minimum at least 0, maximum above 0 and a positive `num_colors` succeeds; its ramp is non-decreasing, has num_colors + 1 steps, and its first and last steps bracket every sample value |
| Choropleth.NegativeNumColorsSingleStep | django_mapengine/choropleth.py:100-105 | a negative `num_colors` leaves the upper limit as the only step |
| Common.NatToStringDigits | django_mapengine/choropleth.py:150 | `str()` of a natural number is a non-empty run of digits without a leading zero |
| Common.IntToStringShape | django_mapengine/choropleth.py:150 | `str()` of a negative number starts with a minus sign, of any other with digits only |
| Choropleth.RgbStrings | django_mapengine/choropleth.py:150 | one `rgb(r, g, b)` string per colour, in order |
| Choropleth.Pairs | django_mapengine/choropleth.py:148-151 | `zip(steps, colors)` flattened: 2 * min length entries, step then colour |
| Choropleth.Colorize | django_mapengine/choropleth.py:136-152 | KeyError without a palette, ChoroplethError for an unknown one, IndexError for more than 9 steps, KeyError for a missing number of colours, and otherwise an expression |
| Choropleth.FillColorOutcome | django_mapengine/choropleth.py:134-152 | the error of the step computation comes first, then the palette errors in the order above; the call succeeds iff the steps do, the palette is known, there are at most 9 steps and the palette has that many colours |
| Choropleth.ColorizeShape | django_mapengine/choropleth.py:142-152 | a successful expression is the three-entry header followed by each step and its `rgb(...)` string, for at most 9 steps |
| Choropleth.ExpressionShape | django_mapengine/choropleth.py:143-151 | the header and the zipped pairs: 3 + 2 * min length entries, step i at 3 + 2i and its colour right after |
| Choropleth.GetFillColor | django_mapengine/choropleth.py:134-152 | the method's result is `FillColor` of the same inputs |
| Choropleth.ColorizeSteps | django_mapengine/choropleth.py:136-152 | the checks and the expression of the method equal `Colorize` |
| Choropleth.BuildExpression | django_mapengine/choropleth.py:143-151 | the appending loop yields the header followed by the zipped pairs |
| Choropleth.GetStaticStyles | django_mapengine/choropleth.py:56-70 | the loop over the catalogue's keys in order equals `StaticStyles` of that order |
| Choropleth.StaticStylesContents | django_mapengine/choropleth.py:64-70 | the batch succeeds iff no entry raises anything but ChoroplethError; it then maps exactly the names whose fill colour succeeds, to that fill colour |
| Choropleth.StaticStylesFirstError | django_mapengine/choropleth.py:64-70 | a failing batch fails with the error of the first entry, in catalogue order, that propagates one |
| Choropleth.UnknownNameHasNoStaticStyle | django_mapengine/choropleth.py:52-54 | an unknown name gets the default config, which has no static values, so it gets no static style |
| Choropleth.UnknownNameDynamic | django_mapengine/choropleth.py:12 | with a valid sample an unknown name gets 7 steps from the default six YlGnBu colours |
| Choropleth.LimitExamples | django_mapengine/choropleth.py:183-216 | 347 gives limits 300 and 400, 0.73 gives 0 and 1, 0 gives 0 |
| Choropleth.DynamicExample | django_mapengine/choropleth.py:94-105 | the sample 10, 40, 50, 310 with six colours gives the steps 10, 75, ..., 400 |
| Distill.Pow2 | django_mapengine/distill.py:16 | `2 ** k` is at least 1 |
| Distill.GetCoordinatesForDistilling | django_mapengine/distill.py:7-25 | the triple loop emits exactly `Coordinates(s)`, in loop order |
| Distill.EmitLevel | django_mapengine/distill.py:16-25 | the x loop of one zoom level appends that level's columns |
| Distill.EmitColumn | django_mapengine/distill.py:16-25 | the y loop of one column appends its tiles in increasing y |
| Distill.CoordinatesMembers | django_mapengine/distill.py:15-25 | a tile is emitted iff its zoom is in [MIN_ZOOM, MAX_DISTILLED_ZOOM] and x and y are in their half-open ranges at that zoom |
| Distill.RangeWidths | django_mapengine/distill.py:17-23 | the x range at zoom z is (1 + X_OFFSET) * 2^(z - MIN_ZOOM) wide, and likewise for y |
| Distill.CoordinatesCount | django_mapengine/distill.py:15-25 | with non-negative range widths the number of tiles is the sum over the zooms of the widths' product |
| Distill.DefaultTileCount | django_mapengine/distill.py:15-25 | with the default settings three zooms and 84 tiles are emitted |
| Distill.CoordinatesIncreasing | django_mapengine/distill.py:15-25 | tiles come strictly increasing in (z, x, y), so none repeats |
| Distill.GetAllStaticsForStateLod | django_mapengine/distill.py:28-37 | one (z, x, y) per distilled tile (x, y, z), in the same order |
| Distill.StateLodIncreasing | django_mapengine/distill.py:36-37 | the re-ordered tuples are strictly increasing lexicographically |
| Layers.LayerKey | django_mapengine/layers.py:38-44 | under each key the finished dict holds the override when there is one, else the style's value, else the layer's own id or source |
| Layers.LayerContents | django_mapengine/layers.py:38-44 | the same for all keys at once: the keys are id, source, the style's keys and the truthy overrides |
| Layers.GetLayer | django_mapengine/layers.py:38-44 | keys are id, source, the style's keys and the truthy overrides; every override, the style and the id/source values are where the dict built in that order puts them |
| Layers.MinZoom | django_mapengine/layers.py:60-79 | the live layer starts after the distilled zooms when distilled tiles are in use, else at MIN_ZOOM; `ZoomHandOff` states it |
| Layers.MaxZoom | django_mapengine/layers.py:81-99 | the live layer ends at MAX_ZOOM and the distilled one after MAX_DISTILLED_ZOOM; `ZoomHandOff` states it |
| Layers.ZoomHandOff | django_mapengine/layers.py:75-99 | with distilling on, the distilled layer ends where the live one starts; zoom bounds otherwise; every distilled tile's zoom lies in the distilled layer's range |
| Layers.StaticMapLayers | django_mapengine/layers.py:110-126 | succeeds iff the layer has a style; one layer, or two with distilling on, with the stated ids, sources, source layer, style and zooms |
| Layers.ClusterMapLayers | django_mapengine/layers.py:145-159 | succeeds iff the three styles exist; the layer, `_cluster` and `_cluster_count` layers on the same source without zooms |
| Layers.RegionLayers | django_mapengine/layers.py:162-200 | the three layers of every region in order, or a KeyError; `RegionLayersSucceed`, `RegionLayersBlocks` and `RegionLayersShape` state it |
| Layers.RegionLayersSucceed | django_mapengine/layers.py:176-200 | the region layers succeed iff every region has zoom levels and the three region styles exist; failure is a KeyError |
| Layers.RegionLayersBlocks | django_mapengine/layers.py:176-200 | three layers per region, block k being region k's triple |
| Layers.RegionLayersShape | django_mapengine/layers.py:176-200 | layer 3k is the fill, 3k+1 the line and 3k+2 the label of region k, with their source layers, zooms and styles |
| Layers.StaticLayers | django_mapengine/layers.py:203-218 | one static model layer per API of a non-region MVT key; `StaticLayersMembers` states it |
| Layers.StaticLayerSource | django_mapengine/layers.py:214-218 | every static model layer comes from an MVT API under a non-region key, with that API's id and model and the key as source |
| Layers.StaticLayerOfApi | django_mapengine/layers.py:214-218 | every MVT API under a non-region key yields its static model layer |
| Layers.StaticLayerMember | django_mapengine/layers.py:214-218 | both directions for one model layer |
| Layers.StaticLayersMembers | django_mapengine/layers.py:214-218 | one model layer per API of a non-region key, and a model layer is produced iff such an API has its id and model and the key as source |
| Layers.StaticLayersExample | django_mapengine/layers.py:214-218 | the test settings give the wind and pvroof layers on the "static" source and skip the region key |
| Layers.ClusterLayers | django_mapengine/layers.py:230-231 | one model layer per cluster API, with the layer id as source |
| Layers.LayerById | django_mapengine/layers.py:234-260 | the first cluster API with the id, else the first MVT API with it, else a KeyError; `LayerByIdPrecedence` states it |
| Layers.GetLayerById | django_mapengine/layers.py:253-260 | the two searching loops return `LayerById` |
| Layers.LookupFirst | django_mapengine/layers.py:256-260 | the search succeeds iff some API has the id, and returns the first such API |
| Layers.MvtApisMembers | django_mapengine/layers.py:256-257 | the flattened MVT APIs are exactly those of some key |
| Layers.LayerByIdPrecedence | django_mapengine/layers.py:253-260 | the found API has the id; a cluster API with the id wins; otherwise the first MVT API with it; a KeyError iff none has it |
| Layers.StaticMapLayersStep | django_mapengine/layers.py:274-275 | one more static layer appends its map layers or fails with its error |
| Layers.ClusterMapLayersStep | django_mapengine/layers.py:276-277 | one more cluster layer appends its map layers or fails with its error |
| Layers.ExtendStatic | django_mapengine/layers.py:274-275 | the extending loop appends the static layers' map layers or stops with their error |
| Layers.ExtendCluster | django_mapengine/layers.py:276-277 | the extending loop appends the cluster layers' map layers or stops with their error |
| Layers.GetAllLayers | django_mapengine/layers.py:273-278 | the method equals `AllLayers` |
| Layers.StaticMapLayersLength | django_mapengine/layers.py:118-126 | one or two map layers per static model layer |
| Layers.ClusterMapLayersLength | django_mapengine/layers.py:145-159 | three map layers per cluster model layer |
| Layers.AllLayers | django_mapengine/layers.py:263-278 | region, static and cluster map layers, or the first error; `AllLayersCount` states it |
| Layers.AllLayersCount | django_mapengine/layers.py:272-278 | the regions' layers come first, then the static ones, then the cluster ones, with their counts |
| Sources.ClusterGetSource | django_mapengine/sources.py:42-45 | the base dict gains `cluster` and `clusterMaxZoom` with their values and is otherwise unchanged |
| Sources.MvtKeys | django_mapengine/sources.py:60 | the keys of MAP_ENGINE_API_MVTS in order |
| Sources.StaticSources | django_mapengine/sources.py:48-65 | a vector source per MVT key, with its distilled twin when distilled tiles are in use; `StaticSourcesShape` states it |
| Sources.StaticSourcesShape | django_mapengine/sources.py:59-65 | one or two sources per key; the vector source of key k at w * k and its distilled twin right after it |
| Sources.DistilledTilesAreStatic | django_mapengine/sources.py:64 | every distilled tile template starts with `/static/mvts` |
| Sources.ClusterSources | django_mapengine/sources.py:77-80 | one geojson source per cluster API, named by its layer id, at the reversed cluster route, clustering up to CLUSTER_ZOOM |
| Sources.SatelliteSources | django_mapengine/sources.py:92-100 | one source per basemap with its id, type and maptiler template |
| Sources.SatelliteTileParts | django_mapengine/sources.py:97-98 | the template starts at the basemap's style and ends with the token, "None" when unset |
| Sources.GetAllSources | django_mapengine/sources.py:112-117 | satellite, static, cluster and configured sources, in that order, with their counts |
| Utils.FirstColor | django_mapengine/utils.py:10-14 | the value of the first colour key present, and None iff none is |
| Utils.StyleColor | django_mapengine/utils.py:7-15 | KeyError iff the layer has no style; TypeError iff paint is not a dict; None iff paint or every colour key is missing; else the first present colour |
| Utils.GetColor | django_mapengine/utils.py:7-15 | the try/continue loop returns `StyleColor` |
| Utils.FieldOptions | django_mapengine/utils.py:22-27 | "id" and other field kinds are skipped; booleans give `=True`, `=False`; integers give one option per choice; an integer field without choices is a TypeError |
| Utils.GetLayerSetups | django_mapengine/utils.py:18-28 | the appending loop then the product equal `LayerSetups` |
| Utils.OptionListsFromFields | django_mapengine/utils.py:21-27 | the loop fails iff some kept integer field has no choices; every list is a field's options |
| Utils.PrependAllMembers | django_mapengine/utils.py:28 | prepending each element gives |xs| * |ps| lists, exactly those with head in xs and tail in ps |
| Utils.ProductMembers | django_mapengine/utils.py:28 | the product has as many tuples as the lengths' product, exactly those taking element i from list i |
| Utils.LayerSetupsMembers | django_mapengine/utils.py:18-28 | the setups are exactly the combinations of one option per kept field |
| Legend.NewLegendLayer | django_mapengine/legend.py:19-21 | construction fails with ValueError iff neither layer nor layer id is given |
| Legend.GetLayerId | django_mapengine/legend.py:48-59 | a truthy layer id wins, else the layer's id, else an AttributeError |
| Legend.GetColor | django_mapengine/legend.py:23-34 | a truthy colour wins; otherwise the style colour of the resolved layer id, a KeyError iff it has no style |
| Legend.Model | django_mapengine/legend.py:61-75 | the layer's model, else the model of the API found for the layer id; `ModelPrecedence` states it |
| Legend.ConstructedLayerId | django_mapengine/legend.py:19-59 | a constructed legend layer fails to resolve its id iff it has no layer and an empty layer id |
| Legend.ModelPrecedence | django_mapengine/legend.py:61-75 | the layer's model wins; otherwise the model of the API `get_layer_by_id` finds, failing iff it finds none |
| Views.StartupLayers | django_mapengine/views.py:56 | the startup layers followed by the regions |
| Views.ToMapLast | django_mapengine/views.py:62-66 | a key of a dict comprehension holds the value of a pair with that key that no later pair repeats |
| Views.ToMapHas | django_mapengine/views.py:62-66 | the key of every pair is a key of the dict |
| Views.ToMapLastWins | django_mapengine/views.py:62-66 | a dict comprehension has exactly the keys of its pairs, each with the value of its last pair |
| Views.ChoroplethStoreLastWins | django_mapengine/views.py:83-91 | one entry per identifier, built from the last row with it |
| Views.GroupPopups | django_mapengine/views.py:100-112 | the grouping loop equals `PopupGroups` |
| Views.IdsOfMembers | django_mapengine/views.py:101-112 | a layer's list holds exactly the identifiers of its rows |
| Views.PopupGroupOf | django_mapengine/views.py:100-112 | a layer has an entry iff one of the rows belongs to it, and the entry lists that layer's identifiers in row order |
| Views.PopupGroupsShape | django_mapengine/views.py:100-112 | one entry per distinct layer, keyed by it, not at the default layer, listing its rows' identifiers in row order |
| Views.IdsOfAbsent | django_mapengine/views.py:105-112 | a layer without rows has an empty list |
| Views.GroupSizesSumToRows | django_mapengine/views.py:101-112 | the lists' lengths add up to the number of rows |
| Views.PopupGroupsPartition | django_mapengine/views.py:100-114 | the groups partition the rows over the distinct layers |
| Views.BuildStore | django_mapengine/views.py:60-114 | the shared fields come from the settings; with a map-layer model the choropleths and popups are replaced wholesale by the rows' |
| Registry.Registry.constructor | django_mapengine/registry.py:6-7 | a new registry is empty |
| Registry.Registry.Register | django_mapengine/registry.py:9-10 | the name maps to the item, other names are unchanged, a new name is appended to the key order and a known one keeps its place |
| Registry.Registry.Items | django_mapengine/registry.py:12-13 | exactly the stored pairs, one per name, reading without changing the registry |
| Middleware.Call | django_mapengine/middleware.py:12-20 | a 404 under `/static/mvts` becomes an empty 204; anything else is the inner response |
| Middleware.MissingDistilledTileIsEmpty | django_mapengine/middleware.py:17-19 | a missing distilled tile is answered with an empty 204 |
| Store.Store.constructor | django_mapengine/static/django_mapengine/js/store.js:3-6 | falsy inits give empty objects |
| Store.Store.Set | django_mapengine/static/django_mapengine/js/store.js:8-23 | changed iff the key is absent or holds a value not `===` the new one; hot then holds the value; a publication iff changed and not silent; cold untouched |
| Popup.CheckPop | django_mapengine/static/django_mapengine/js/popup.js:20-29 | false without an entry; the entry's `atDefaultLayer` without a choropleth; else whether the entry's list exists and includes the choropleth |
| Popup.Lookup | django_mapengine/static/django_mapengine/js/popup.js:52 | the layer id without a choropleth, else the choropleth's name |
| Popup.GroupedPopups | django_mapengine/static/django_mapengine/js/popup.js:20-29 | on popups grouped from rows, nothing pops up without a choropleth, and with choropleth c a layer pops up iff one of its rows is c |
| Popup.CreateListByName | django_mapengine/static/django_mapengine/js/popup.js:12-18 | one element per key in enumeration order, each the key's value under name or undefined |
| Popup.CreateCoordinates | django_mapengine/static/django_mapengine/js/popup.js:5-10 | lat and lon of the first feature when it has lat, else the event's lngLat; a TypeError without a feature |

## Left out

- Reading the choropleth style file and `settings.py`'s JSON loading: I/O. The catalogue is a value.
- `colorbrewer.py` is not part of this model: the palette table is a parameter.
- `Choropleth.BuildExpression`: the loop receives the colour strings rendered before it, so the f-string is formatted up front rather than inside each round; the result is the same.
- `Utils.StyleColor`, `Layers.GetLayer`: entries of MAP_ENGINE_LAYER_STYLES are dicts. The static choropleth styles that conf.py:31 merges into it are lists, and the model does not hold them. So it does not capture the TypeError that get_color raises when it indexes such an entry with "paint", nor the one get_layer raises when it spreads one.
- Python floats: breakpoints are exact reals and `math.log10` is an exact digit count, so printed artefacts such as 166.66666666666666 and rounding of log10 near powers of ten are not modelled.
- `reverse_lazy`, the Django request, the ORM queries and `apps.get_model` with their LookupErrors: URL reversal is a parameter and the query results are row sequences.
- `setup.MapSource`, its `get_source` and `as_dict` are not part of this model: `Sources.ClusterGetSource` takes the base dict as a parameter.
- `LegendLayer.style` calls `utils.get_layer_style`, which is not part of this model.
- `settings.get_region_zooms` wraps an external range dictionary and is not part of this model.
- Distill.CoordinatesCount: the per-zoom product formula is stated for offsets of at least -1; with a smaller offset the range is empty and only the plain count applies.
- Generators are modelled as the sequences they yield; laziness and partial consumption are not.
- `Store.Store.constructor`: a truthy init that is not an object (a string, a number) is not modelled; an init is an object or falsy.
- `Store.Store.Set`: `NaN !== NaN` is not modelled; objects are references, so `===` is equality of references. PubSub's asynchronous delivery is a log of publications.
- `Popup.CheckPop`: `currentChoropleth` is null or a name, as `init.js` and `choropleth.js` set it; an undefined value is not modelled.
- `Popup.CreateListByName`: the series is given as its keys in enumeration order; JavaScript's ordering of integer-like keys and inherited enumerable keys are not modelled.
- The maplibre, DOM, ajax and PubSub wiring of the frontend, including the ajax body of `add_popup`: event-driven UI.
- `Registry.Registry.Items`: a Python `dict.items()` is a live view; the model returns a snapshot of the pairs.
- Assertions of `tests/test_choropleths.py` and `tests/test_sources.py` that contradict the current code: the model follows the code.
