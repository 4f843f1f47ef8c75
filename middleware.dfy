/** The middleware that answers requests for missing distilled tiles with an
    empty response instead of a 404. */
module Middleware {
  import opened Common
  import Sources

  /** The parts of an HTTP response the rule reads and writes. */
  datatype Response = Response(status: int, content: string)

  /** The empty response HttpResponse(status=204) produces. */
  const NoContent := Response(204, "")

  /** MapEngineMiddleware.__call__: the inner handler answers the request
      once; a 404 under the distilled MVT path becomes an empty 204, anything
      else is passed through unchanged. */
  function Call(getResponse: string -> Response, path: string): (r: Response)
    ensures StartsWith(path, Sources.DistilledMvtsPath) && getResponse(path).status == 404 ==> r == NoContent
    ensures StartsWith(path, Sources.DistilledMvtsPath) && getResponse(path).status != 404 ==> r == getResponse(path)
    ensures !StartsWith(path, Sources.DistilledMvtsPath) ==> r == getResponse(path)
  {
    var response := getResponse(path);
    if StartsWith(path, Sources.DistilledMvtsPath) && response.status == 404 then NoContent else response
  }

  /** The path of one tile of a distilled source, its template's placeholders filled in. */
  function DistilledTilePath(appUrl: string, source: string, z: string, x: string, y: string): string {
    Sources.DistilledMvtsPath + appUrl + z + "/" + x + "/" + y + "/" + source + ".mvt"
  }

  /** A distilled tile that was never rendered reaches the map as an empty
      204 response, never as a 404. */
  lemma MissingDistilledTileIsEmpty(getResponse: string -> Response, appUrl: string, source: string,
                                    z: string, x: string, y: string)
    ensures var path := DistilledTilePath(appUrl, source, z, x, y);
      getResponse(path).status == 404 ==> Call(getResponse, path) == NoContent
  {
    var path := DistilledTilePath(appUrl, source, z, x, y);
    assert path[..|Sources.DistilledMvtsPath|] == Sources.DistilledMvtsPath;
  }
}
