/**
 * Click resolution (`useMapClick`): per map click, either a synthetic test
 * feature at the clicked point, or the first feature the WFS point query
 * returns, or nothing. The result is the feature handed to `onFeatureClick`.
 */
module MapClick {
  import opened Wrappers
  import opened Http
  import opened Wfs

  const TEST_NAME: string := "Тестовый объект"
  const TEST_DESCRIPTION: string := "Это демонстрационный объект"

  /** Test mode: no WFS service, or no (or an empty) layer name. */
  predicate TestMode(wfsService: Option<Endpoint>, layerName: Option<string>)
  {
    wfsService.None? || layerName.None? || layerName.value == ""
  }

  /** A GeoJSON Point geometry at (lat, lng), coordinates lng first. */
  function PointAt(lat: real, lng: real): Geometry
  {
    Geometry("Point", [Number(lng), Number(lat)])
  }

  /**
   * The synthetic feature of test mode: a Point at the click, with a fixed name
   * and description, the coordinates as `toFixed(6)` text of lat then lng, and
   * the local time of the click (`timestamp`, from the clock).
   */
  function TestFeature(lat: real, lng: real, fixed6: real -> string, timestamp: string): (f: Feature)
    ensures f.geometry == Some(PointAt(lat, lng))
    ensures |f.properties| == 4
    ensures f.properties[0] == ("name", Str(TEST_NAME))
    ensures f.properties[1] == ("description", Str(TEST_DESCRIPTION))
    ensures f.properties[2] == ("coordinates", Str(fixed6(lat) + ", " + fixed6(lng)))
    ensures f.properties[3] == ("timestamp", Str(timestamp))
  {
    Feature([("name", Str(TEST_NAME)),
             ("description", Str(TEST_DESCRIPTION)),
             ("coordinates", Str(fixed6(lat) + ", " + fixed6(lng))),
             ("timestamp", Str(timestamp))],
            Some(PointAt(lat, lng)))
  }

  /** The first feature of an answer that has a non-empty features array. */
  function FirstFeature(response: Option<FeatureResponse>): (r: Option<Feature>)
    ensures r.Some? <==> response.Some? && response.value.features.Some? && |response.value.features.value| > 0
    ensures r.Some? ==> r.value == response.value.features.value[0]
  {
    match response
    case Some(FeatureResponse(Some(features))) =>
      if |features| > 0 then Some(features[0]) else None
    case _ => None
  }

  /**
   * The click handler: the feature it publishes for a click at (lat, lng), or
   * `None` when it publishes nothing. In query mode it asks for the point's
   * features with the default buffer.
   */
  function HandleClick(lat: real, lng: real, wfsService: Option<Endpoint>, layerName: Option<string>,
                       show: real -> string, fixed6: real -> string, escape: string -> string,
                       timestamp: string, transport: Request -> Outcome<FeatureResponse>): Option<Feature>
  {
    if TestMode(wfsService, layerName) then
      Some(TestFeature(lat, lng, fixed6, timestamp))
    else
      FirstFeature(GetFeatureByPoint(wfsService.value, lat, lng, layerName.value, None, show, escape, transport))
  }

  /** The request a query-mode click sends. */
  function ClickRequest(lat: real, lng: real, wfsService: Endpoint, layerName: string,
                        show: real -> string, escape: string -> string): Request
  {
    GetFeatureByPointRequest(wfsService, lat, lng, layerName, None, show, escape)
  }

  /**
   * In test mode the click publishes the test feature whatever any server
   * would answer: the WFS service is never consulted.
   */
  lemma TestModeNeverQueries(lat: real, lng: real, wfsService: Option<Endpoint>, layerName: Option<string>,
                             show: real -> string, fixed6: real -> string, escape: string -> string,
                             timestamp: string, t1: Request -> Outcome<FeatureResponse>,
                             t2: Request -> Outcome<FeatureResponse>)
    requires TestMode(wfsService, layerName)
    ensures HandleClick(lat, lng, wfsService, layerName, show, fixed6, escape, timestamp, t1)
         == HandleClick(lat, lng, wfsService, layerName, show, fixed6, escape, timestamp, t2)
         == Some(TestFeature(lat, lng, fixed6, timestamp))
  {
  }

  /**
   * In query mode the click publishes exactly `features[0]` when the server
   * answers 2xx with a non-empty features array, and nothing otherwise: on a
   * failure, a timeout, another status, a missing or an empty array.
   */
  lemma QueryModePublishesFirst(lat: real, lng: real, wfsService: Endpoint, layerName: string,
                                show: real -> string, fixed6: real -> string, escape: string -> string,
                                timestamp: string, transport: Request -> Outcome<FeatureResponse>)
    requires layerName != ""
    ensures var o := transport(ClickRequest(lat, lng, wfsService, layerName, show, escape));
      var r := HandleClick(lat, lng, Some(wfsService), Some(layerName), show, fixed6, escape, timestamp, transport);
      && (r.Some? <==> o.Answered? && IsOk(o.status) && o.body.features.Some? && |o.body.features.value| > 0)
      && (r.Some? ==> r.value == o.body.features.value[0])
  {
    GetFeatureByPointContainsErrors(wfsService, lat, lng, layerName, None, show, escape, transport);
  }

  /** A click publishes a feature of its own making or one the server sent, never anything else. */
  lemma PublishedFeatureOrigin(lat: real, lng: real, wfsService: Option<Endpoint>, layerName: Option<string>,
                               show: real -> string, fixed6: real -> string, escape: string -> string,
                               timestamp: string, transport: Request -> Outcome<FeatureResponse>)
    ensures var r := HandleClick(lat, lng, wfsService, layerName, show, fixed6, escape, timestamp, transport);
      r.Some? ==>
        || r.value == TestFeature(lat, lng, fixed6, timestamp)
        || (var o := transport(ClickRequest(lat, lng, wfsService.value, layerName.value, show, escape));
            o.Answered? && o.body.features.Some? && r.value in o.body.features.value)
  {
  }
}
