# Map query layer: a Dafny model

This project models the query-construction and click-resolution layer of a
small map application that sits between a Leaflet map and OGC servers:

- the **bounding-box builders** (`createBboxFromPoint` of the WFS adapter,
  `createBbox` of the WMS adapter), which write `minLng,minLat,maxLng,maxLat`;
- the **request builders** of the WMS adapter (GetMap URL, GetCapabilities)
  and of the WFS adapter (GetFeature by point and by bbox, GetCapabilities),
  each a fixed, ordered `URLSearchParams` list on an immutable base URL, with
  the adapters' policy that every failed fetch, non-2xx status or thrown
  exception becomes `null` (malformed capabilities XML throws nothing: it
  parses to an error document and yields a possibly empty layer list);
- the **capabilities layer filter** of `parseCapabilitiesXML`, a loop that
  keeps the `Layer` elements with a non-empty Name and Title, in order, and
  stamps each with the CRS list `["EPSG:4326"]` and the whole-world box;
- **click resolution** (`useMapClick`): a synthetic test feature, or
  `features[0]` of the WFS answer, or nothing;
- the **map view**: the `FeatureMarker` projection (GeoJSON `[lng, lat]` drawn
  at Leaflet's `[lat, lng]`, one popup line per property), the
  `selectedFeature` state cell set by `handleFeatureClick`, and the wiring of
  the `wms`/`wfs` toggles.

Modules, one per component: `Text` (join/split), `UrlQuery` (query strings
and a reference reader for them), `Http` (endpoint configuration, requests,
outcomes), `Bbox`, `Wfs`, `Wms`, `MapClick`, `MapView`, and `Wrappers`
(`Option`).

Abstractions:

- Numbers are `real`, so the bbox arithmetic is exact.
- JavaScript's number-to-string conversion (`show`), `toFixed(6)` (`fixed6`)
  and form-urlencoding (`escape`) are function parameters. Round trips are
  stated under the properties those functions have, per value for numbers:
  the text of a given number has no comma and parses back to it
  (`Bbox.ReadsBack`, and `Bbox.BoxReadsBack` for a box's four fields; no
  printer reads back every real, so the premise is never stated for all
  numbers at once, and `Bbox.WorldReadsBack` shows it can hold); an encoded
  name or value has no bare `&` or `=` and decodes back (`UrlQuery.FormSafe`).
- A URL is `baseUrl + "?" + Encode(params)`; `UrlQuery.ReadUrl` is a
  reference reader, so every builder is checked by reading its URL back.
- The network is a `transport: Request -> Outcome<T>` parameter: an HTTP
  answer with a status and a decoded body, or a failure (network error,
  timeout). The request carries the URL, the endpoint's credentials and the
  timeout, so the answer can depend on all of them.
- A capabilities document is the sequence of its `Layer` elements, each
  reduced to the texts of its first `Name`, `Title` and `Abstract`
  descendant (`Wms.LayerElement`).
- A feature's properties are the sequence `Object.entries` enumerates.
- The current time of a test feature is a `timestamp` parameter.

Points where the model follows the code rather than a protocol convention:

- The GetMap request sends `crs=EPSG:4326` with the bbox longitude first.
  WMS 1.3.0 orders EPSG:4326 latitude first; the code (and the model) write
  `minLng,minLat,maxLng,maxLat` regardless.
- A GetFeature body that is not JSON is not turned into `null`: axios hands
  the text back as `response.data` and the adapter returns it. The model
  represents such data as a `Wfs.FeatureResponse` without a features array.
  The click handler then publishes nothing, as it does for `null`.

## Model

| member | source | states |
|---|---|---|
| `Http.NewEndpoint` | src/services/wfsService.ts:22-30 | the base URL is kept; an omitted user name or password is the placeholder "mo", a given one is kept verbatim |
| `Http.Settle` | src/services/wfsService.ts:56-68 | an answer yields its body exactly when its status is 2xx; a failure or any other status yields `None` |
| `Bbox.FromPoint` | src/services/wfsService.ts:114-117 | the point box is centred on (lat, lng) with side 2*buffer on both axes; well-ordered for buffer >= 0; degenerate (min = max = the point) for buffer = 0 |
| `Bbox.CreateBboxFromPointFields` | src/services/wfsService.ts:109-120 | for comma-free number texts, the text splits at commas into exactly lng-b, lat-b, lng+b, lat+b in that order, and a server reads those four numbers back whenever each of them reads back |
| `Bbox.SerializeRoundTrip` | src/services/wfsService.ts:119 | a box whose four numbers each read back is serialised and re-parsed into the same four numbers |
| `Bbox.CreateBboxPassesThrough` | src/services/wmsService.ts:150-157 | the four extrema are written in the given order with no min <= max check; reversed extrema whose numbers read back are read back unchanged |
| `Bbox.PointBoxIsExtremaBox` | src/services/wfsService.ts:114-119 | the point builder equals the extrema builder applied to the point box's corners |
| `UrlQuery.UrlRoundTrip` | src/services/wfsService.ts:44-54 | a URL built from a base and an ordered parameter list reads back as exactly that list |
| `Wfs.GetFeatureParams` | src/services/wfsService.ts:44-52 | GetFeature names are service, version, request, typeName, outputFormat, bbox, srsname in that order, distinct; typeName is the layer and bbox the given text |
| `Wfs.GetFeatureParamsFixed` | src/services/wfsService.ts:44-52 | the fixed values are WFS, 1.1.0, GetFeature, application/json and EPSG:4326 |
| `Wfs.WfsRequest` | src/services/wfsService.ts:56-62 | every WFS request carries the endpoint's own user name and password and the 10000 ms timeout |
| `Wfs.GetFeatureByPointUrl` | src/services/wfsService.ts:35-62 | the point-query URL reads back as the GetFeature list whose bbox is the point box's text, sent with the endpoint's credentials and timeout; where the box's numbers read back, a server recovers lng-b, lat-b, lng+b, lat+b |
| `Wfs.DefaultBuffer` | src/services/wfsService.ts:39 | an omitted buffer is 0.001 |
| `Wfs.PointQueryIsBboxQuery` | src/services/wfsService.ts:42-89 | the point query sends the same request as the bbox query on `createBboxFromPoint`'s text, so it yields the same result for any server |
| `Wfs.BboxPassedVerbatim` | src/services/wfsService.ts:74-89 | any caller-supplied bbox text, however malformed, is sent unchanged as the bbox parameter |
| `Wfs.GetFeatureByPointContainsErrors` | src/services/wfsService.ts:56-68 | a failure, a timeout or a non-2xx status yields `None`; a 2xx answer yields its body |
| `Http.CapabilitiesParams` | src/services/wfsService.ts:127-131 | the GetCapabilities names are service, version, request in that order, distinct, with request GetCapabilities and the given service and version (WFS 1.1.0 here, WMS 1.3.0 at src/services/wmsService.ts:70-74) |
| `Wfs.GetCapabilitiesUrl` | src/services/wfsService.ts:125-148 | the capabilities URL reads back as those three parameters; the raw document is returned exactly on a 2xx answer, and is then the answer's body; `None` otherwise |
| `Wms.GetMapParams` | src/services/wmsService.ts:48-60 | the eleven GetMap names in order, distinct; layers is the layer name and bbox the given text unchanged |
| `Wms.GetMapParamsValues` | src/services/wmsService.ts:48-60 | the fixed values WMS, 1.3.0, GetMap, empty styles, image/png, true, EPSG:4326, and width and height as the numbers' text |
| `Wms.GetWmsUrlParams` | src/services/wmsService.ts:42-63 | the GetMap URL reads back as exactly the eleven parameters; omitted width and height are 256 |
| `Wms.GetCapabilitiesRequest` | src/services/wmsService.ts:78-83 | the capabilities fetch carries the endpoint's credentials and no timeout |
| `Wms.GetCapabilitiesUrl` | src/services/wmsService.ts:70-76 | the capabilities URL reads back as service WMS, version 1.3.0, request GetCapabilities |
| `Wms.KeptLayersExact` | src/services/wmsService.ts:108-130 | the descriptors are exactly those of the elements with a non-empty Name and Title, in document order (strictly increasing positions, every kept element present), at most one per element |
| `Wms.KeptLayersStamped` | src/services/wmsService.ts:116-127 | every descriptor has a non-empty name and title, crs ["EPSG:4326"] and bbox (-180, -90, 180, 90), whatever the document says |
| `Wms.NamelessLayerSkipped` | src/services/wmsService.ts:111-130 | a named, titled layer beside a layer without a Name gives exactly one descriptor, for the named one |
| `Wms.ParseCapabilitiesXml` | src/services/wmsService.ts:102-145 | the loop emits the filtered descriptors of the document's `Layer` elements; a parser that threw gives `None` |
| `Wms.GetCapabilities` | src/services/wmsService.ts:68-96 | the layer list comes back exactly when the fetch is answered with a 2xx status and a parsed body, and is then the filtered list; otherwise `None` |
| `MapClick.TestFeature` | src/hooks/useMapClick.ts:25-37 | the test feature is a Point at `[lng, lat]` of the click with four properties in order: the fixed name, the fixed description, the `toFixed(6)` text of lat then lng, and the timestamp |
| `MapClick.FirstFeature` | src/hooks/useMapClick.ts:50-56 | a feature is taken exactly when the answer has a non-empty features array, and it is `features[0]` |
| `MapClick.TestModeNeverQueries` | src/hooks/useMapClick.ts:22-40 | with no service or no or an empty layer name, the test feature is published whatever any server would answer |
| `MapClick.QueryModePublishesFirst` | src/hooks/useMapClick.ts:42-59 | with a service and a layer, `features[0]` is published exactly when the server answers 2xx with a non-empty features array; otherwise nothing |
| `MapClick.PublishedFeatureOrigin` | src/hooks/useMapClick.ts:19-60 | a click publishes at most one feature, and it is the test feature or one the server sent |
| `MapView.PopupLines` | src/components/MapView.tsx:59-63 | one line per property, in entry order, key then `String(value)` |
| `MapView.FeatureMarker` | src/components/MapView.tsx:29-68 | a marker exists exactly for a present feature whose geometry is present and of type "Point"; its popup is the property lines |
| `MapView.MarkerSwapsAxes` | src/components/MapView.tsx:36-55 | a Point at GeoJSON `[x, y]` is drawn at `[y, x]` |
| `MapView.TestClickMarkedAtClick` | src/hooks/useMapClick.ts:33-36 | a test-mode click at (lat, lng) is drawn at exactly `[lat, lng]` |
| `MapView.WmsTileUrlRequest` | src/components/MapView.tsx:104-113 | the WMS tile URL exists exactly when the wms toggle is on, and asks for "test_layer" at 256 by 256, over (-180, -90, 180, 90) wherever those four numbers read back |
| `MapView.ClickService` | src/components/MapView.tsx:116-120 | the click handler gets the WFS service exactly when the wfs toggle is on, and it is then the view's configured WFS endpoint |
| `MapView.ClickModeFollowsWfsToggle` | src/components/MapView.tsx:116-120 | clicks are in test mode exactly when the wfs toggle is off |
| `MapView.MapViewState.constructor` | src/components/MapView.tsx:80-82 | no feature is selected initially and none has been forwarded |
| `MapView.MapViewState.HandleFeatureClick` | src/components/MapView.tsx:89-92 | the feature becomes the selected one and the same feature is forwarded to `onFeatureClick` |
| `MapView.MapViewState.Click` | src/components/MapView.tsx:116-123 | a click publishes what the click handler resolves, at most one feature, through `handleFeatureClick`; with wfs off the marker is then at the click |

## Left out

- Network I/O: `axios.get` and `fetch`, the enforcement of the 10 s timeout
  and the Basic-auth header (`btoa`). Their outcome is the `transport`
  parameter; the model keeps the credentials and timeout on the request.
- XML parsing: `DOMParser` and `querySelectorAll`/`querySelector` are not
  modelled; the document is given as its `Layer` elements' first-descendant
  texts. `querySelector` searches descendants, not children, so a container
  `Layer` without its own `Name` would take its first sub-layer's Name; that
  case lies in how the records are obtained, outside this model.
- `Wms.ParseCapabilitiesXml`: which bodies make `DOMParser` produce an error
  document is not modelled; such a document reaches the filter as its own
  `Layer` elements, and `None` stands only for a parser that threw.
- `Wms.GetCapabilities`: the nested `WMS_Capabilities.Capability.Layer.Layer`
  wrapper of the result is flattened to the layer list.
- JavaScript number formatting, `toFixed(6)`, `toLocaleString` and
  percent-encoding are parameters, not defined; IEEE floating point is
  replaced by reals.
- The click handler's own `catch` is not modelled as a separate path: the
  WFS adapter catches every failure itself and returns `null`, which the
  model covers.
- `MapView.PopupLines`: a property value is a string, number, boolean or
  `null` (`Wfs.Value`); nested objects and arrays, which `String(value)`
  renders as `[object Object]` or comma-joined items, are not expressible.
- A feature whose `properties` is not an object (where `Object.entries`
  would throw) cannot be expressed: properties are always an entry sequence.
- Concurrency: overlapping clicks and the order in which their answers
  arrive; React rendering and hook lifecycle; console logging.
- Presentation: the marker icon (SVG and base64), the base OpenStreetMap
  layer, map centre and zoom, the unused `zws` toggle, and `App.tsx`
  (drawer, panels, `handleLayerToggle`).
