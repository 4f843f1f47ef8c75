/** When a click on a layer opens a popup, where its coordinates come from,
    and which key the popup is fetched by. */
module Popup {
  import opened Common
  import Views

  /** map_store.cold.currentChoropleth: null, or the name of the shown choropleth. */
  datatype Current = NoChoropleth | Selected(name: string)

  /** checkPop(layerID) over map_store.cold.popups. */
  function CheckPop(popups: map<string, Views.PopupEntry>, current: Current, layerId: string): (r: bool)
    ensures layerId !in popups ==> !r
    ensures layerId in popups && current.NoChoropleth? ==> r == popups[layerId].atDefaultLayer
    ensures layerId in popups && current.Selected? ==>
      (r <==> popups[layerId].choropleths.Some? && current.name in popups[layerId].choropleths.value)
  {
    if layerId !in popups then false
    else if current.NoChoropleth? then popups[layerId].atDefaultLayer
    else if popups[layerId].choropleths.None? then false
    else if current.name !in popups[layerId].choropleths.value then false
    else true
  }

  /** The key the popup is requested by (the lookup of add_popup). */
  function Lookup(current: Current, layerId: string): (r: string)
    ensures current.NoChoropleth? ==> r == layerId
    ensures current.Selected? ==> r == current.name
  {
    if current.NoChoropleth? then layerId else current.name
  }

  /** On popups grouped from the map-layer rows, no layer pops up without a
      choropleth, and with choropleth c shown, a layer pops up exactly when
      one of its rows is c; the popup is then fetched by c. */
  lemma GroupedPopups(rows: seq<Views.PopupRow>, current: Current, layerId: string)
    ensures current.NoChoropleth? ==> !CheckPop(Views.PopupGroups(rows), current, layerId)
    ensures current.Selected? ==>
      (CheckPop(Views.PopupGroups(rows), current, layerId) <==>
        exists i :: 0 <= i < |rows| && rows[i].geomLayer == layerId && rows[i].identifier == current.name)
    ensures CheckPop(Views.PopupGroups(rows), current, layerId) ==> Lookup(current, layerId) == current.name
  {
    Views.PopupGroupsShape(rows);
    if current.Selected? {
      Views.IdsOfMembers(rows, layerId, current.name);
    }
  }

  /** The value a popup's series holds under name for one item, undefined
      when it has none. */
  function Entry(item: map<string, JsValue>, name: string): JsValue {
    if name in item then item[name] else Undefined
  }

  /** createListByName(name, series): the series' items in the order its
      keys are enumerated, paired with their keys. */
  method CreateListByName(name: string, series: seq<(string, map<string, JsValue>)>) returns (list: seq<JsValue>)
    ensures |list| == |series|
    ensures forall i :: 0 <= i < |series| ==> list[i] == Entry(series[i].1, name)
  {
    list := [];
    for i := 0 to |series|
      invariant |list| == i
      invariant forall j :: 0 <= j < i ==> list[j] == Entry(series[j].1, name)
    {
      list := list + [Entry(series[i].1, name)];
    }
  }

  /** A clicked feature, with its properties, and the event. */
  datatype Feature = Feature(properties: map<string, JsValue>)
  datatype ClickEvent = ClickEvent(features: seq<Feature>, lngLat: JsValue)

  /** Where the popup is anchored. */
  datatype Coordinates = LatLon(lat: JsValue, lon: JsValue) | EventLngLat(lngLat: JsValue)

  /** createCoordinates(event): lat and lon of the first feature when it has
      a lat property, else the event's position; without a feature, reading
      its properties is a TypeError. */
  function CreateCoordinates(event: ClickEvent): (r: Result<Coordinates>)
    ensures event.features == [] <==> r == Failure(TypeError)
    ensures event.features != [] && "lat" in event.features[0].properties ==>
      r == Success(LatLon(event.features[0].properties["lat"], Entry(event.features[0].properties, "lon")))
    ensures event.features != [] && "lat" !in event.features[0].properties ==>
      r == Success(EventLngLat(event.lngLat))
  {
    if event.features == [] then Failure(TypeError)
    else if "lat" in event.features[0].properties then
      Success(LatLon(event.features[0].properties["lat"], Entry(event.features[0].properties, "lon")))
    else Success(EventLngLat(event.lngLat))
  }
}
