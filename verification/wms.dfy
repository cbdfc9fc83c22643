/**
 * The WMS adapter (OGC WMS 1.3.0): GetMap URLs for tile layers, and
 * GetCapabilities, whose XML answer is reduced to a list of layer descriptors.
 */
module Wms {
  import opened Wrappers
  import opened UrlQuery
  import opened Http
  import opened Bbox

  /** Tile size used when the caller gives none. */
  const DEFAULT_TILE_SIZE: int := 256
  /** The only CRS every parsed layer is stamped with. */
  const LAYER_CRS: seq<string> := ["EPSG:4326"]

  /**
   * One `Layer` element of a capabilities document, as the parser sees it: the
   * text of its first `Name`, `Title` and `Abstract` descendant, when present.
   */
  datatype LayerElement = LayerElement(name: Option<string>, title: Option<string>, abstractText: Option<string>)

  /** A layer descriptor. */
  datatype WmsLayer = WmsLayer(name: string, title: string, abstractText: Option<string>,
                               crs: seq<string>, bbox: Box)

  /** The GetMap parameters; width and height are JavaScript numbers rendered by `show`. */
  function GetMapParams(layerName: string, bbox: string, width: int, height: int,
                        show: real -> string): (ps: seq<Param>)
    ensures Keys(ps) == ["service", "version", "request", "layers", "styles", "format",
                         "transparent", "width", "height", "crs", "bbox"]
    ensures DistinctKeys(ps)
    ensures Lookup(ps, "layers") == Some(layerName) && Lookup(ps, "bbox") == Some(bbox)
  {
    var ps := [("service", "WMS"), ("version", "1.3.0"), ("request", "GetMap"), ("layers", layerName),
               ("styles", ""), ("format", "image/png"), ("transparent", "true"),
               ("width", show(width as real)), ("height", show(height as real)),
               ("crs", "EPSG:4326"), ("bbox", bbox)];
    LookupAt(ps, 3);
    LookupAt(ps, 10);
    ps
  }

  /** The fixed values and the size of the GetMap parameters. */
  lemma GetMapParamsValues(layerName: string, bbox: string, width: int, height: int, show: real -> string)
    ensures var ps := GetMapParams(layerName, bbox, width, height, show);
      && Lookup(ps, "service") == Some("WMS") && Lookup(ps, "version") == Some("1.3.0")
      && Lookup(ps, "request") == Some("GetMap") && Lookup(ps, "styles") == Some("")
      && Lookup(ps, "format") == Some("image/png") && Lookup(ps, "transparent") == Some("true")
      && Lookup(ps, "width") == Some(show(width as real)) && Lookup(ps, "height") == Some(show(height as real))
      && Lookup(ps, "crs") == Some("EPSG:4326")
  {
    var ps := GetMapParams(layerName, bbox, width, height, show);
    LookupAt(ps, 0);
    LookupAt(ps, 1);
    LookupAt(ps, 2);
    LookupAt(ps, 4);
    LookupAt(ps, 5);
    LookupAt(ps, 6);
    LookupAt(ps, 7);
    LookupAt(ps, 8);
    LookupAt(ps, 9);
  }

  /** `getWMSUrl`; an omitted width or height is 256. */
  function GetWmsUrl(svc: Endpoint, layerName: string, bbox: string, width: Option<int>, height: Option<int>,
                     show: real -> string, escape: string -> string): string
  {
    Url(svc.baseUrl, GetMapParams(layerName, bbox, width.GetOr(DEFAULT_TILE_SIZE),
                                  height.GetOr(DEFAULT_TILE_SIZE), show), escape)
  }

  /**
   * The GetMap URL reads back as exactly the eleven GetMap parameters in
   * order, with `layers` the layer name and `bbox` the given text unchanged;
   * omitted sizes are 256.
   */
  lemma GetWmsUrlParams(svc: Endpoint, layerName: string, bbox: string, width: Option<int>, height: Option<int>,
                        show: real -> string, escape: string -> string, unescape: string -> string)
    requires FormSafe(escape, unescape)
    ensures var w, h := width.GetOr(256), height.GetOr(256);
      var ps := ReadUrl(GetWmsUrl(svc, layerName, bbox, width, height, show, escape), svc.baseUrl, unescape);
      && ps == Some(GetMapParams(layerName, bbox, w, h, show))
      && Lookup(ps.value, "layers") == Some(layerName) && Lookup(ps.value, "bbox") == Some(bbox)
      && Lookup(ps.value, "width") == Some(show(w as real)) && Lookup(ps.value, "height") == Some(show(h as real))
  {
    var w, h := width.GetOr(256), height.GetOr(256);
    UrlRoundTrip(svc.baseUrl, GetMapParams(layerName, bbox, w, h, show), escape, unescape);
    GetMapParamsValues(layerName, bbox, w, h, show);
  }

  /** The GetCapabilities fetch: Basic auth, no timeout. */
  function GetCapabilitiesRequest(svc: Endpoint, escape: string -> string): (r: Request)
    ensures r.username == svc.username && r.password == svc.password && r.timeoutMs.None?
  {
    Request(Url(svc.baseUrl, CapabilitiesParams("WMS", "1.3.0"), escape), svc.username, svc.password, None)
  }

  /** The capabilities URL reads back as service WMS, version 1.3.0, request GetCapabilities. */
  lemma GetCapabilitiesUrl(svc: Endpoint, escape: string -> string, unescape: string -> string)
    requires FormSafe(escape, unescape)
    ensures ReadUrl(GetCapabilitiesRequest(svc, escape).url, svc.baseUrl, unescape)
         == Some(CapabilitiesParams("WMS", "1.3.0"))
  {
    UrlRoundTrip(svc.baseUrl, CapabilitiesParams("WMS", "1.3.0"), escape, unescape);
  }

  /** The parser keeps an element when both its Name and Title texts are present and non-empty. */
  predicate Keep(e: LayerElement)
  {
    e.name.Some? && e.name.value != "" && e.title.Some? && e.title.value != ""
  }

  /** The descriptor of a kept element: its texts, the fixed CRS list and the whole world. */
  function ToLayer(e: LayerElement): WmsLayer
    requires Keep(e)
  {
    WmsLayer(e.name.value, e.title.value, e.abstractText, LAYER_CRS, WORLD)
  }

  /** The descriptors the parser emits for a document's `Layer` elements. */
  function KeptLayers(doc: seq<LayerElement>): seq<WmsLayer>
  {
    if doc == [] then []
    else
      var last := doc[|doc| - 1];
      KeptLayers(doc[..|doc| - 1]) + if Keep(last) then [ToLayer(last)] else []
  }

  /** The positions of the kept elements, in document order. */
  function KeptPositions(doc: seq<LayerElement>): seq<nat>
  {
    if doc == [] then []
    else
      var n := |doc| - 1;
      KeptPositions(doc[..n]) + if Keep(doc[n]) then [n] else []
  }

  /**
   * The parser emits exactly the elements with a non-empty Name and Title, in
   * document order: the j-th descriptor comes from the j-th kept position,
   * positions strictly increase, and every kept element has its position.
   */
  lemma {:induction false} KeptLayersExact(doc: seq<LayerElement>)
    ensures var ks, ls := KeptPositions(doc), KeptLayers(doc);
      && |ls| == |ks| <= |doc|
      && (forall j :: 0 <= j < |ks| ==> ks[j] < |doc| && Keep(doc[ks[j]]) && ls[j] == ToLayer(doc[ks[j]]))
      && (forall j, k :: 0 <= j < k < |ks| ==> ks[j] < ks[k])
      && (forall i :: 0 <= i < |doc| && Keep(doc[i]) ==> i in ks)
  {
    if doc != [] {
      var n := |doc| - 1;
      KeptLayersExact(doc[..n]);
      var ks0 := KeptPositions(doc[..n]);
      forall i | 0 <= i < |doc| && Keep(doc[i]) ensures i in KeptPositions(doc) {
        if i < n {
          assert doc[..n][i] == doc[i];
        }
      }
      forall j | 0 <= j < |ks0| ensures doc[..n][ks0[j]] == doc[ks0[j]] {
      }
    }
  }

  /** Every descriptor has a non-empty name and title, the fixed CRS list and the whole-world box. */
  lemma {:induction false} KeptLayersStamped(doc: seq<LayerElement>)
    ensures forall l :: l in KeptLayers(doc) ==>
      l.name != "" && l.title != "" && l.crs == ["EPSG:4326"] && l.bbox == Box(-180.0, -90.0, 180.0, 90.0)
  {
    if doc != [] {
      KeptLayersStamped(doc[..|doc| - 1]);
    }
  }

  /**
   * A document with a named, titled layer and a layer without a Name yields
   * exactly one descriptor, for the named one.
   */
  lemma NamelessLayerSkipped()
    ensures KeptLayers([LayerElement(Some("roads"), Some("Roads"), None), LayerElement(None, Some("NoName"), None)])
         == [WmsLayer("roads", "Roads", None, ["EPSG:4326"], WORLD)]
  {
    var doc := [LayerElement(Some("roads"), Some("Roads"), None), LayerElement(None, Some("NoName"), None)];
    assert doc[..1] == [doc[0]];
    assert doc[..1][..0] == [];
  }

  /**
   * `parseCapabilitiesXML` over a parsed document: walks the `Layer` elements
   * in order and pushes a descriptor for each kept one. `None` stands for a
   * parser that threw; malformed XML does not throw but parses to an error
   * document, which arrives as its `Layer` elements (typically none).
   */
  method ParseCapabilitiesXml(parsed: Option<seq<LayerElement>>) returns (r: Option<seq<WmsLayer>>)
    ensures parsed.None? ==> r.None?
    ensures parsed.Some? ==> r == Some(KeptLayers(parsed.value))
  {
    if parsed.None? {
      return None;
    }
    var layers := parsed.value;
    var wmsLayers: seq<WmsLayer> := [];
    for i := 0 to |layers|
      invariant wmsLayers == KeptLayers(layers[..i])
    {
      var layer := layers[i];
      if Keep(layer) {
        wmsLayers := wmsLayers + [ToLayer(layer)];
      }
      assert layers[..i + 1][..i] == layers[..i];
    }
    assert layers[..|layers|] == layers;
    return Some(wmsLayers);
  }

  /**
   * `getCapabilities`: fetch the document (the transport's answer carries the
   * parsed document, `None` when reading the body or the parser threw; a
   * malformed body is an error document with its own, usually empty, `Layer`
   * list); a rejected fetch or a status outside 2xx yields `None`.
   */
  method GetCapabilities(svc: Endpoint, escape: string -> string,
                         transport: Request -> Outcome<Option<seq<LayerElement>>>)
    returns (r: Option<seq<WmsLayer>>)
    ensures var o := transport(GetCapabilitiesRequest(svc, escape));
      && (r.Some? <==> o.Answered? && IsOk(o.status) && o.body.Some?)
      && (r.Some? ==> r.value == KeptLayers(o.body.value))
  {
    var response := transport(GetCapabilitiesRequest(svc, escape));
    if response.Failed? || !IsOk(response.status) {
      return None;
    }
    r := ParseCapabilitiesXml(response.body);
  }
}
