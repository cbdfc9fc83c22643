/**
 * The WFS adapter (OGC WFS 1.1.0): GetFeature by point or by bbox and
 * GetCapabilities, each an authenticated GET with a fixed, ordered parameter
 * list on the adapter's base URL. Every failure is contained as `None`.
 */
module Wfs {
  import opened Wrappers
  import opened UrlQuery
  import opened Http
  import opened Bbox

  /** Half-side of the point-query box when the caller gives none (about 100 m). */
  const DEFAULT_BUFFER: real := 0.001
  /** axios timeout of every WFS request. */
  const REQUEST_TIMEOUT_MS: nat := 10000

  /** GeoJSON coordinates: a number or a (nested) array of them. */
  datatype Coordinates = Number(x: real) | Array(items: seq<Coordinates>)

  /**
   * A GeoJSON geometry; `kind` is its `type` member ("Point", "Polygon", ...)
   * and `coordinates` its (always array-valued) coordinates member.
   */
  datatype Geometry = Geometry(kind: string, coordinates: seq<Coordinates>)

  /** A property value of a feature. */
  datatype Value = Str(s: string) | Num(n: real) | Bool(b: bool) | Null

  /** A feature: its properties in `Object.entries` order and its geometry, if any. */
  datatype Feature = Feature(properties: seq<(string, Value)>, geometry: Option<Geometry>)

  /**
   * The decoded answer of GetFeature: `features` is absent when the data has
   * no features array (a body that was not a JSON feature collection).
   */
  datatype FeatureResponse = FeatureResponse(features: Option<seq<Feature>>)

  /** The GetFeature parameters, shared by the point and the bbox query. */
  function GetFeatureParams(layerName: string, bbox: string): (ps: seq<Param>)
    ensures Keys(ps) == ["service", "version", "request", "typeName", "outputFormat", "bbox", "srsname"]
    ensures DistinctKeys(ps)
    ensures Lookup(ps, "typeName") == Some(layerName) && Lookup(ps, "bbox") == Some(bbox)
  {
    var ps := [("service", "WFS"), ("version", "1.1.0"), ("request", "GetFeature"), ("typeName", layerName),
               ("outputFormat", "application/json"), ("bbox", bbox), ("srsname", "EPSG:4326")];
    LookupAt(ps, 3);
    LookupAt(ps, 5);
    ps
  }

  /** The fixed values of the GetFeature parameters. */
  lemma GetFeatureParamsFixed(layerName: string, bbox: string)
    ensures var ps := GetFeatureParams(layerName, bbox);
      && Lookup(ps, "service") == Some("WFS") && Lookup(ps, "version") == Some("1.1.0")
      && Lookup(ps, "request") == Some("GetFeature") && Lookup(ps, "outputFormat") == Some("application/json")
      && Lookup(ps, "srsname") == Some("EPSG:4326")
  {
    var ps := GetFeatureParams(layerName, bbox);
    LookupAt(ps, 0);
    LookupAt(ps, 1);
    LookupAt(ps, 2);
    LookupAt(ps, 4);
    LookupAt(ps, 6);
  }

  /** The authenticated GET every WFS call issues for a URL. */
  function WfsRequest(svc: Endpoint, url: string): (r: Request)
    ensures r.url == url && r.username == svc.username && r.password == svc.password
    ensures r.timeoutMs == Some(REQUEST_TIMEOUT_MS)
  {
    Request(url, svc.username, svc.password, Some(REQUEST_TIMEOUT_MS))
  }

  /** The request of `getFeaturesByBbox`: the caller's bbox text, unvalidated. */
  function GetFeaturesByBboxRequest(svc: Endpoint, bbox: string, layerName: string,
                                    escape: string -> string): Request
  {
    WfsRequest(svc, Url(svc.baseUrl, GetFeatureParams(layerName, bbox), escape))
  }

  /** The request of `getFeatureByPoint`; an omitted buffer is `DEFAULT_BUFFER`. */
  function GetFeatureByPointRequest(svc: Endpoint, lat: real, lng: real, layerName: string,
                                    buffer: Option<real>, show: real -> string,
                                    escape: string -> string): Request
  {
    var bbox := CreateBboxFromPoint(lat, lng, buffer.GetOr(DEFAULT_BUFFER), show);
    WfsRequest(svc, Url(svc.baseUrl, GetFeatureParams(layerName, bbox), escape))
  }

  /** `getFeatureByPoint`: the decoded answer, or `None` on any failure. */
  function GetFeatureByPoint(svc: Endpoint, lat: real, lng: real, layerName: string,
                             buffer: Option<real>, show: real -> string, escape: string -> string,
                             transport: Request -> Outcome<FeatureResponse>): Option<FeatureResponse>
  {
    Settle(transport(GetFeatureByPointRequest(svc, lat, lng, layerName, buffer, show, escape)))
  }

  /** `getFeaturesByBbox`: the decoded answer, or `None` on any failure. */
  function GetFeaturesByBbox(svc: Endpoint, bbox: string, layerName: string, escape: string -> string,
                             transport: Request -> Outcome<FeatureResponse>): Option<FeatureResponse>
  {
    Settle(transport(GetFeaturesByBboxRequest(svc, bbox, layerName, escape)))
  }

  function GetCapabilitiesRequest(svc: Endpoint, escape: string -> string): Request
  {
    WfsRequest(svc, Url(svc.baseUrl, CapabilitiesParams("WFS", "1.1.0"), escape))
  }

  /** `getCapabilities`: the raw, unparsed document, or `None` on any failure. */
  function GetCapabilities(svc: Endpoint, escape: string -> string,
                           transport: Request -> Outcome<string>): Option<string>
  {
    Settle(transport(GetCapabilitiesRequest(svc, escape)))
  }

  /**
   * The point-query URL reads back as the GetFeature parameters, with typeName
   * the layer and bbox the point box around (lat, lng); the endpoint's
   * credentials and timeout go with it. Where each of the box's numbers reads
   * back, a server recovers the fields lng-b, lat-b, lng+b, lat+b.
   */
  lemma GetFeatureByPointUrl(svc: Endpoint, lat: real, lng: real, layerName: string, buffer: real,
                             show: real -> string, parse: string -> Option<real>,
                             escape: string -> string, unescape: string -> string)
    requires FormSafe(escape, unescape)
    ensures var r := GetFeatureByPointRequest(svc, lat, lng, layerName, Some(buffer), show, escape);
      && ReadUrl(r.url, svc.baseUrl, unescape)
           == Some(GetFeatureParams(layerName, CreateBboxFromPoint(lat, lng, buffer, show)))
      && r.username == svc.username && r.password == svc.password
      && r.timeoutMs == Some(REQUEST_TIMEOUT_MS)
    ensures BoxReadsBack(show, parse, FromPoint(lat, lng, buffer)) ==>
              ParseBox(CreateBboxFromPoint(lat, lng, buffer, show), parse)
              == Some(Box(lng - buffer, lat - buffer, lng + buffer, lat + buffer))
  {
    var bbox := CreateBboxFromPoint(lat, lng, buffer, show);
    UrlRoundTrip(svc.baseUrl, GetFeatureParams(layerName, bbox), escape, unescape);
    if BoxReadsBack(show, parse, FromPoint(lat, lng, buffer)) {
      SerializeRoundTrip(FromPoint(lat, lng, buffer), show, parse);
    }
  }

  /** An omitted buffer is 0.001 degrees. */
  lemma DefaultBuffer(svc: Endpoint, lat: real, lng: real, layerName: string,
                      show: real -> string, escape: string -> string)
    ensures GetFeatureByPointRequest(svc, lat, lng, layerName, None, show, escape)
         == GetFeatureByPointRequest(svc, lat, lng, layerName, Some(0.001), show, escape)
  {
  }

  /**
   * A point query is a bbox query on the point's box: same request, hence the
   * same result whatever the server answers.
   */
  lemma PointQueryIsBboxQuery(svc: Endpoint, lat: real, lng: real, layerName: string, buffer: real,
                              show: real -> string, escape: string -> string,
                              transport: Request -> Outcome<FeatureResponse>)
    ensures GetFeatureByPointRequest(svc, lat, lng, layerName, Some(buffer), show, escape)
         == GetFeaturesByBboxRequest(svc, CreateBboxFromPoint(lat, lng, buffer, show), layerName, escape)
    ensures GetFeatureByPoint(svc, lat, lng, layerName, Some(buffer), show, escape, transport)
         == GetFeaturesByBbox(svc, CreateBboxFromPoint(lat, lng, buffer, show), layerName, escape, transport)
  {
  }

  /** Whatever text the caller passes as bbox is sent verbatim, unvalidated. */
  lemma BboxPassedVerbatim(svc: Endpoint, bbox: string, layerName: string,
                           escape: string -> string, unescape: string -> string)
    requires FormSafe(escape, unescape)
    ensures var ps := ReadUrl(GetFeaturesByBboxRequest(svc, bbox, layerName, escape).url, svc.baseUrl, unescape);
      ps == Some(GetFeatureParams(layerName, bbox)) && Lookup(ps.value, "bbox") == Some(bbox)
  {
    UrlRoundTrip(svc.baseUrl, GetFeatureParams(layerName, bbox), escape, unescape);
  }

  /**
   * Null on error: the point query yields the body exactly when the server
   * answers with a 2xx status, and `None` on a failure, a timeout or any other
   * status.
   */
  lemma GetFeatureByPointContainsErrors(svc: Endpoint, lat: real, lng: real, layerName: string,
                                        buffer: Option<real>, show: real -> string,
                                        escape: string -> string,
                                        transport: Request -> Outcome<FeatureResponse>)
    ensures var o := transport(GetFeatureByPointRequest(svc, lat, lng, layerName, buffer, show, escape));
      var r := GetFeatureByPoint(svc, lat, lng, layerName, buffer, show, escape, transport);
      && (o.Failed? ==> r.None?)
      && (o.Answered? && !IsOk(o.status) ==> r.None?)
      && (o.Answered? && IsOk(o.status) ==> r == Some(o.body))
  {
  }

  /** The capabilities URL reads back as the three GetCapabilities parameters. */
  lemma GetCapabilitiesUrl(svc: Endpoint, escape: string -> string, unescape: string -> string,
                           transport: Request -> Outcome<string>)
    requires FormSafe(escape, unescape)
    ensures ReadUrl(GetCapabilitiesRequest(svc, escape).url, svc.baseUrl, unescape) == Some(CapabilitiesParams("WFS", "1.1.0"))
    ensures GetCapabilities(svc, escape, transport).Some?
        <==> transport(GetCapabilitiesRequest(svc, escape)).Answered?
             && IsOk(transport(GetCapabilitiesRequest(svc, escape)).status)
    ensures GetCapabilities(svc, escape, transport).Some?
        ==> GetCapabilities(svc, escape, transport).value == transport(GetCapabilitiesRequest(svc, escape)).body
  {
    UrlRoundTrip(svc.baseUrl, CapabilitiesParams("WFS", "1.1.0"), escape, unescape);
  }
}
