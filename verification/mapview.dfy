/**
 * The map view: the marker drawn for the selected feature, the state cell
 * that holds that feature, and the wiring of the layer toggles to the WMS
 * tile URL and to the click handler's WFS service.
 */
module MapView {
  import opened Wrappers
  import opened UrlQuery
  import opened Http
  import opened Bbox
  import opened Wfs
  import Wms
  import opened MapClick

  const WFS_SERVICE: Endpoint := NewEndpoint("https://example.com/wfs", None, None)
  const WMS_SERVICE: Endpoint := NewEndpoint("https://example.com/wms", None, None)
  /** The one layer the view queries and draws. */
  const LAYER_NAME: string := "test_layer"
  /** Width and height of the WMS tile request. */
  const TILE_SIZE: int := 256

  /** The layer toggles of the UI shell. */
  datatype SelectedLayers = SelectedLayers(wms: bool, wfs: bool, zws: bool)

  /** One popup line: a property name and its value as text. */
  datatype PopupLine = PopupLine(key: string, text: string)

  /**
   * A marker: the position `[lat, lng]` handed to the map (an entry is `None`
   * when the destructured coordinate is `undefined`) and the popup lines.
   */
  datatype Marker = Marker(lat: Option<Coordinates>, lng: Option<Coordinates>, popup: seq<PopupLine>)

  /** `String(value)`; numbers are rendered by `show`. */
  function JsString(v: Value, show: real -> string): string
  {
    match v
    case Str(s) => s
    case Num(n) => show(n)
    case Bool(b) => if b then "true" else "false"
    case Null => "null"
  }

  /** The array element at `i`, or `undefined` past the end. */
  function At(cs: seq<Coordinates>, i: nat): Option<Coordinates>
  {
    if i < |cs| then Some(cs[i]) else None
  }

  /** One line per property, in entry order, key then `String(value)`. */
  function PopupLines(properties: seq<(string, Value)>, show: real -> string): (lines: seq<PopupLine>)
    ensures |lines| == |properties|
    ensures forall i :: 0 <= i < |properties| ==>
      lines[i].key == properties[i].0 && lines[i].text == JsString(properties[i].1, show)
  {
    if properties == [] then []
    else [PopupLine(properties[0].0, JsString(properties[0].1, show))] + PopupLines(properties[1..], show)
  }

  /**
   * `FeatureMarker`: a marker only for a present feature with a Point
   * geometry, placed at `[lat, lng]` from GeoJSON's `[lng, lat]`.
   */
  function FeatureMarker(feature: Option<Feature>, show: real -> string): (m: Option<Marker>)
    ensures m.Some? <==> feature.Some? && feature.value.geometry.Some? && feature.value.geometry.value.kind == "Point"
    ensures m.Some? ==> m.value.popup == PopupLines(feature.value.properties, show)
  {
    match feature
    case Some(Feature(properties, Some(Geometry("Point", coordinates)))) =>
      var lng, lat := At(coordinates, 0), At(coordinates, 1);
      Some(Marker(lat, lng, PopupLines(properties, show)))
    case _ => None
  }

  /** The marker swaps the axes: a Point at GeoJSON `[x, y]` is drawn at `[y, x]`. */
  lemma MarkerSwapsAxes(properties: seq<(string, Value)>, x: real, y: real, show: real -> string)
    ensures FeatureMarker(Some(Feature(properties, Some(Geometry("Point", [Number(x), Number(y)])))), show)
         == Some(Marker(Some(Number(y)), Some(Number(x)), PopupLines(properties, show)))
  {
  }

  /**
   * Round trip: a test-mode click at (lat, lng) is drawn at exactly
   * `[lat, lng]`, with the four test properties in the popup.
   */
  lemma TestClickMarkedAtClick(lat: real, lng: real, wfsService: Option<Endpoint>, layerName: Option<string>,
                               show: real -> string, fixed6: real -> string, escape: string -> string,
                               timestamp: string, transport: Request -> Outcome<FeatureResponse>)
    requires TestMode(wfsService, layerName)
    ensures var m := FeatureMarker(HandleClick(lat, lng, wfsService, layerName, show, fixed6, escape,
                                               timestamp, transport), show);
      m.Some? && m.value.lat == Some(Number(lat)) && m.value.lng == Some(Number(lng)) && |m.value.popup| == 4
  {
    var f := TestFeature(lat, lng, fixed6, timestamp);
    MarkerSwapsAxes(f.properties, lng, lat, show);
  }

  /** The WMS tile layer: present only when the WMS toggle is on. */
  function WmsTileUrl(selected: SelectedLayers, show: real -> string, escape: string -> string): Option<string>
  {
    if selected.wms then
      Some(Wms.GetWmsUrl(WMS_SERVICE, LAYER_NAME, CreateBbox(-180.0, -90.0, 180.0, 90.0, show),
                         Some(TILE_SIZE), Some(TILE_SIZE), show, escape))
    else None
  }

  /**
   * The tile URL exists exactly when the WMS toggle is on; it asks for the
   * view's layer at 256 by 256, over the whole world wherever the world box's
   * four numbers read back.
   */
  lemma WmsTileUrlRequest(selected: SelectedLayers, show: real -> string, parse: string -> Option<real>,
                          escape: string -> string, unescape: string -> string)
    requires FormSafe(escape, unescape)
    ensures WmsTileUrl(selected, show, escape).Some? <==> selected.wms
    ensures selected.wms ==>
      var ps := ReadUrl(WmsTileUrl(selected, show, escape).value, WMS_SERVICE.baseUrl, unescape);
      && ps.Some?
      && Lookup(ps.value, "layers") == Some(LAYER_NAME)
      && Lookup(ps.value, "width") == Some(show(256.0)) && Lookup(ps.value, "height") == Some(show(256.0))
      && Lookup(ps.value, "bbox").Some?
      && (BoxReadsBack(show, parse, WORLD) ==> ParseBox(Lookup(ps.value, "bbox").value, parse) == Some(WORLD))
  {
    if selected.wms {
      var bbox := CreateBbox(-180.0, -90.0, 180.0, 90.0, show);
      Wms.GetWmsUrlParams(WMS_SERVICE, LAYER_NAME, bbox, Some(TILE_SIZE), Some(TILE_SIZE), show, escape, unescape);
      if BoxReadsBack(show, parse, WORLD) {
        CreateBboxPassesThrough(-180.0, -90.0, 180.0, 90.0, show, parse);
      }
    }
  }

  /** The WFS service handed to the click handler: only when the WFS toggle is on. */
  function ClickService(selected: SelectedLayers): (s: Option<Endpoint>)
    ensures s.Some? <==> selected.wfs
    ensures s.Some? ==> s.value == WFS_SERVICE
  {
    if selected.wfs then Some(WFS_SERVICE) else None
  }

  /** With the WFS toggle off every click is in test mode; with it on, none is. */
  lemma ClickModeFollowsWfsToggle(selected: SelectedLayers)
    ensures TestMode(ClickService(selected), Some(LAYER_NAME)) <==> !selected.wfs
  {
  }

  /** The view's state: the selected feature, and what it forwarded to its `onFeatureClick` prop. */
  class MapViewState {
    var selectedFeature: Option<Feature>
    /** Every feature forwarded to the `onFeatureClick` prop, oldest first. */
    var forwarded: seq<Feature>

    constructor()
      ensures selectedFeature.None? && forwarded == []
    {
      selectedFeature := None;
      forwarded := [];
    }

    /** `handleFeatureClick`: select the feature and forward the same feature. */
    method HandleFeatureClick(feature: Feature)
      modifies this
      ensures selectedFeature == Some(feature)
      ensures forwarded == old(forwarded) + [feature]
    {
      selectedFeature := Some(feature);
      forwarded := forwarded + [feature];
    }

    /**
     * A map click as the view wires it: the click handler gets the WFS service
     * only when the WFS toggle is on, and whatever it publishes goes through
     * `handleFeatureClick`; at most one feature per click.
     */
    method Click(lat: real, lng: real, selected: SelectedLayers, show: real -> string, fixed6: real -> string,
                 escape: string -> string, timestamp: string, transport: Request -> Outcome<FeatureResponse>)
      returns (published: Option<Feature>)
      modifies this
      ensures published == HandleClick(lat, lng, ClickService(selected), Some(LAYER_NAME), show, fixed6,
                                       escape, timestamp, transport)
      ensures published.Some? ==> selectedFeature == published && forwarded == old(forwarded) + [published.value]
      ensures published.None? ==> selectedFeature == old(selectedFeature) && forwarded == old(forwarded)
      ensures !selected.wfs ==>
        var m := FeatureMarker(selectedFeature, show);
        m.Some? && m.value.lat == Some(Number(lat)) && m.value.lng == Some(Number(lng))
    {
      published := HandleClick(lat, lng, ClickService(selected), Some(LAYER_NAME), show, fixed6,
                               escape, timestamp, transport);
      if published.Some? {
        HandleFeatureClick(published.value);
      }
      if !selected.wfs {
        TestClickMarkedAtClick(lat, lng, ClickService(selected), Some(LAYER_NAME), show, fixed6,
                               escape, timestamp, transport);
      }
    }
  }
}
