/**
 * The KML NetworkLink output for a WMS GetMap request: each requested layer becomes a
 * `<NetworkLink>` the globe viewer fetches lazily. Covers the rewrite of the request format,
 * the choice between super-overlay and plain overlay, the per-layer choice between a
 * GeoWebCache link and a Region/Lod link, the per-layer bounds with their fallback chain,
 * and their aggregation into one envelope.
 */
module NetworkLinkFormat {
  import opened Outcomes
  import opened Geometry
  import opened Kml

  // The MIME types: the plain KML and KMZ ones and their network-link variants.
  const KmlMime := "application/vnd.google-earth.kml+xml"
  const KmzMime := "application/vnd.google-earth.kmz"
  const KmlNetworkLinkMime := KmlMime + ";mode=networklink"
  const KmzNetworkLinkMime := KmzMime + ";mode=networklink"

  const Epsg4326 := "EPSG:4326"
  const GwcKmlServicePath := "gwc/service/kml/"

  /** An OGC filter; `Include` is `Filter.INCLUDE`, the filter that lets every feature through. */
  datatype Filter = Include | Exclude | Predicate(text: string)

  /** The parts of a layer's GeoTools `Query` the bounds decision reads; a `None` filter is `null`. */
  datatype Query = Query(filter: Option<Filter>, maxFeaturesUnlimited: bool)

  /**
   * What `getFeatures(query).getBounds()` does for a layer: it throws (`QueryFailed`)
   * or returns an envelope, possibly a `null` reference.
   */
  datatype FeatureBounds = QueryFailed | Bounded(bounds: Option<Envelope>)

  /** A map layer of the WMS map content: its query and its feature source's answer to it. */
  datatype MapLayer = MapLayer(query: Query, features: FeatureBounds)

  /** What `getLatLongBoundingBox()` does: throws an `IOException` or returns a possibly `null` box. */
  datatype DeclaredBounds = Unreadable | Declared(bounds: Option<Envelope>)

  /** A requested layer as the catalog describes it. */
  datatype MapLayerInfo = MapLayerInfo(name: string, prefixedName: string, isRaster: bool, latLongBounds: DeclaredBounds)

  datatype Style = Style(name: Option<string>)

  /** A parsed format option value: a string or a `Boolean`. */
  datatype OptionValue = Text(text: string) | Flag(flag: bool)

  type FormatOptions = map<string, OptionValue>

  /** A decoded coordinate reference system. */
  datatype Crs = Crs(code: string, longitudeFirst: bool)

  /** A snapshot of the GetMap request, as the collaborators see it. */
  datatype RequestView = RequestView(
    format: string,
    bbox: Option<Envelope>,
    layers: seq<MapLayerInfo>,
    styles: seq<Style>,
    formatOptions: FormatOptions,
    baseUrl: string)

  /** The exceptions that abort map production. */
  datatype Failure =
    | OptionTypeMismatch(key: string)  // a format option of the wrong Java type (ClassCastException)
    | CrsUnavailable                   // CRS.decode of the aggregation system failed
    | DeclaredBoundsUnreadable         // getLatLongBoundingBox threw an IOException
    | NullLayerBounds                  // a layer's bounds were null, so reprojecting them threw
    | ReprojectionFailed               // reprojecting a layer's bounds into the aggregation system threw

  /** The collaborators whose code is not part of this model. */
  datatype Services = Services(
    decodeCrs: (string, bool) -> Option<Crs>,                       // CRS.decode(code, longitudeFirst); None: it threw
    transform: (Envelope, Crs) -> Option<Envelope>,                 // ReferencedEnvelope.transform(crs, true); None: it threw
    getMapUrl: (RequestView, string, nat, Option<string>) -> string, // WMSRequests.getGetMapUrl(request, layer, index, style, null, null)
    buildUrl: (string, string) -> string,                           // ResponseUtils.buildURL(baseUrl, path, null, SERVICE)
    urlDecode: string -> string,                                    // URLDecoder.decode(href, "UTF-8")
    buildLookAt: (Envelope, FormatOptions) -> LookAt,               // LookAtDecoratorFactory.buildLookAt(bounds, new LookAtOptions(options), false)
    superoverlayMode: RequestView -> Option<string>,                // KMLUtils.getSuperoverlayMode(request, wms)
    gwcCompatible: (RequestView, nat) -> bool)                      // KMLUtils.isRequestGWCCompatible(request, i, wms)

  /** The GetMap request; map production changes its format and its bounding box. */
  class GetMapRequest {
    var format: string
    var bbox: Option<Envelope>
    const layers: seq<MapLayerInfo>
    const styles: seq<Style>
    const formatOptions: FormatOptions
    const baseUrl: string

    constructor (format: string, bbox: Option<Envelope>, layers: seq<MapLayerInfo>, styles: seq<Style>,
                 formatOptions: FormatOptions, baseUrl: string)
      ensures View() == RequestView(format, bbox, layers, styles, formatOptions, baseUrl)
    {
      this.format := format;
      this.bbox := bbox;
      this.layers := layers;
      this.styles := styles;
      this.formatOptions := formatOptions;
      this.baseUrl := baseUrl;
    }

    function View(): RequestView
      reads this
    {
      RequestView(format, bbox, layers, styles, formatOptions, baseUrl)
    }

    method SetFormat(f: string)
      modifies this
      ensures View() == old(View()).(format := f)
    {
      format := f;
    }

    method SetBbox(b: Option<Envelope>)
      modifies this
      ensures View() == old(View()).(bbox := b)
    {
      bbox := b;
    }
  }

  /** The WMS map content: one map layer per requested layer, and the request itself. */
  datatype MapContent = MapContent(layers: seq<MapLayer>, request: GetMapRequest)

  /** What `computePerLayerQueryBounds` produces: the aggregate it returns and the list it fills. */
  datatype LayerBoundsList = LayerBoundsList(aggregate: Envelope, perLayer: seq<Envelope>)

  /** The produced map: the KML document and the MIME type of the response. */
  datatype KmlMap = KmlMap(document: Document, mime: string)

  // ---------------------------------------------------------------------------------------
  // Bounds of one layer

  /**
   * Whether the feature-query bounds are attempted: the incoming flag survives only with a
   * filter other than null and INCLUDE, and a limited feature count forces the attempt.
   */
  predicate WantsQueryBounds(q: Query, computeQueryBounds: bool) {
    (computeQueryBounds && q.filter.Some? && q.filter.value != Include) || !q.maxFeaturesUnlimited
  }

  /**
   * The value the feature-query attempt leaves behind (`None`: still `null`): nothing when
   * decoding EPSG:4326 or the query throws, the untransformed bounds when only the
   * transform throws, and the reprojected bounds otherwise.
   */
  function QueryBounds(layer: MapLayer, svc: Services): Option<Envelope> {
    match svc.decodeCrs(Epsg4326, false)
    case None => None
    case Some(crs) =>
      match layer.features
      case QueryFailed => None
      case Bounded(None) => None
      case Bounded(Some(b)) =>
        match svc.transform(b, crs)
        case None => Some(b)
        case Some(t) => Some(t)
  }

  /** The declared lat/long box; an `IOException` here is fatal. */
  function DeclaredBoundsOf(info: MapLayerInfo): Result<Option<Envelope>, Failure> {
    match info.latLongBounds
    case Unreadable => Failure(DeclaredBoundsUnreadable)
    case Declared(b) => Success(b)
  }

  /** The bounds of one layer: the query bounds when attempted and non-null, else the declared box. */
  function LayerBounds(layer: MapLayer, info: MapLayerInfo, computeQueryBounds: bool, svc: Services)
    : Result<Option<Envelope>, Failure>
  {
    if WantsQueryBounds(layer.query, computeQueryBounds) && QueryBounds(layer, svc).Some?
    then Success(QueryBounds(layer, svc))
    else DeclaredBoundsOf(info)
  }

  /** `computeLayerBounds`: the flag and the box are settled step by step, as in the source. */
  method ComputeLayerBounds(layer: MapLayer, info: MapLayerInfo, computeQueryBounds: bool, svc: Services)
    returns (r: Result<Option<Envelope>, Failure>)
    ensures r == LayerBounds(layer, info, computeQueryBounds, svc)
    ensures r.Failure? <==> r == Failure(DeclaredBoundsUnreadable)
  {
    var compute := computeQueryBounds;
    var filter := layer.query.filter;
    if filter.None? || filter == Some(Include) {
      compute := false;
    }
    if !compute && !layer.query.maxFeaturesUnlimited {
      compute := true;
    }
    assert compute == WantsQueryBounds(layer.query, computeQueryBounds);

    var bbox: Option<Envelope> := None;
    if compute {
      // every exception in this block is logged and absorbed
      var targetCrs := svc.decodeCrs(Epsg4326, false);
      if targetCrs.Some? {
        match layer.features {
          case QueryFailed =>
          case Bounded(b) =>
            bbox := b;
            if bbox.Some? {
              var t := svc.transform(bbox.value, targetCrs.value);
              if t.Some? {
                bbox := t;
              }
            }
        }
      }
    }
    if bbox.None? {
      match info.latLongBounds {
        case Unreadable =>
          return Failure(DeclaredBoundsUnreadable);
        case Declared(b) =>
          bbox := b;
      }
    }
    r := Success(bbox);
  }

  /** INCLUDE or a null filter cancels the incoming flag, unless the feature count is limited. */
  lemma WantsQueryBoundsCases(q: Query, computeQueryBounds: bool)
    ensures ((q.filter.None? || q.filter == Some(Include)) && q.maxFeaturesUnlimited)
            ==> !WantsQueryBounds(q, computeQueryBounds)
    ensures !q.maxFeaturesUnlimited ==> WantsQueryBounds(q, computeQueryBounds)
    ensures !computeQueryBounds ==> (WantsQueryBounds(q, computeQueryBounds) <==> !q.maxFeaturesUnlimited)
  {
  }

  /** The fallback chain: the query bounds win only when attempted and non-null. */
  lemma LayerBoundsFallback(layer: MapLayer, info: MapLayerInfo, computeQueryBounds: bool, svc: Services)
    ensures !WantsQueryBounds(layer.query, computeQueryBounds)
            ==> LayerBounds(layer, info, computeQueryBounds, svc) == DeclaredBoundsOf(info)
    ensures (WantsQueryBounds(layer.query, computeQueryBounds) && QueryBounds(layer, svc).None?)
            ==> LayerBounds(layer, info, computeQueryBounds, svc) == DeclaredBoundsOf(info)
    ensures (WantsQueryBounds(layer.query, computeQueryBounds) && QueryBounds(layer, svc).Some?)
            ==> LayerBounds(layer, info, computeQueryBounds, svc) == Success(QueryBounds(layer, svc))
    ensures LayerBounds(layer, info, computeQueryBounds, svc).Failure?
            <==> (!(WantsQueryBounds(layer.query, computeQueryBounds) && QueryBounds(layer, svc).Some?)
                  && info.latLongBounds.Unreadable?)
  {
  }

  /** A failed reprojection of successfully fetched bounds keeps the untransformed bounds. */
  lemma UntransformedBoundsKept(layer: MapLayer, info: MapLayerInfo, computeQueryBounds: bool, svc: Services,
                                crs: Crs, b: Envelope)
    requires WantsQueryBounds(layer.query, computeQueryBounds)
    requires svc.decodeCrs(Epsg4326, false) == Some(crs)
    requires layer.features == Bounded(Some(b)) && svc.transform(b, crs).None?
    ensures LayerBounds(layer, info, computeQueryBounds, svc) == Success(Some(b))
  {
  }

  // ---------------------------------------------------------------------------------------
  // Aggregation over the layers

  /** The entry one layer adds to the list: its bounds reprojected into the aggregation system. */
  function PerLayerEntry(layer: MapLayer, info: MapLayerInfo, computeQueryBounds: bool, crs: Crs, svc: Services)
    : Result<Envelope, Failure>
  {
    match LayerBounds(layer, info, computeQueryBounds, svc)
    case Failure(e) => Failure(e)
    case Success(None) => Failure(NullLayerBounds)
    case Success(Some(b)) =>
      match svc.transform(b, crs)
      case None => Failure(ReprojectionFailed)
      case Some(t) => Success(t)
  }

  /** The list after the first `n` layers, or the first failure among them. */
  function PerLayerPrefix(layers: seq<MapLayer>, infos: seq<MapLayerInfo>, computeQueryBounds: bool,
                          crs: Crs, svc: Services, n: nat)
    : (r: Result<seq<Envelope>, Failure>)
    requires n <= |layers| <= |infos|
    ensures r.Success? ==> |r.value| == n
    ensures r.Success? ==> forall i :: 0 <= i < n ==>
              PerLayerEntry(layers[i], infos[i], computeQueryBounds, crs, svc) == Success(r.value[i])
    decreases n
  {
    if n == 0 then Success([])
    else
      match PerLayerPrefix(layers, infos, computeQueryBounds, crs, svc, n - 1)
      case Failure(e) => Failure(e)
      case Success(s) =>
        match PerLayerEntry(layers[n - 1], infos[n - 1], computeQueryBounds, crs, svc)
        case Failure(e) => Failure(e)
        case Success(t) => Success(s + [t])
  }

  /** `computePerLayerQueryBounds` as a value: the per-layer list and the union of its entries. */
  function Aggregate(layers: seq<MapLayer>, infos: seq<MapLayerInfo>, computeQueryBounds: bool, svc: Services)
    : (r: Result<LayerBoundsList, Failure>)
    requires |layers| == |infos|
    ensures r.Success? ==> |r.value.perLayer| == |layers|
  {
    match svc.decodeCrs(Epsg4326, true)
    case None => Failure(CrsUnavailable)
    case Some(crs) =>
      match PerLayerPrefix(layers, infos, computeQueryBounds, crs, svc, |layers|)
      case Failure(e) => Failure(e)
      case Success(s) => Success(LayerBoundsList(UnionAll(s), s))
  }

  /** Once a layer has failed, the layers after it are never reached and the failure stands. */
  lemma {:induction false} PerLayerFailureSticks(layers: seq<MapLayer>, infos: seq<MapLayerInfo>, computeQueryBounds: bool,
                                                 crs: Crs, svc: Services, k: nat, n: nat)
    requires k <= n <= |layers| <= |infos|
    requires PerLayerPrefix(layers, infos, computeQueryBounds, crs, svc, k).Failure?
    ensures PerLayerPrefix(layers, infos, computeQueryBounds, crs, svc, n)
            == PerLayerPrefix(layers, infos, computeQueryBounds, crs, svc, k)
    decreases n
  {
    if k < n {
      PerLayerFailureSticks(layers, infos, computeQueryBounds, crs, svc, k, n - 1);
    }
  }

  /**
   * The list is built exactly when every layer succeeds; otherwise the error is that of the
   * first failing layer.
   */
  lemma {:induction false} PerLayerFailureIsFirst(layers: seq<MapLayer>, infos: seq<MapLayerInfo>, computeQueryBounds: bool,
                                                  crs: Crs, svc: Services, n: nat)
    requires n <= |layers| <= |infos|
    ensures PerLayerPrefix(layers, infos, computeQueryBounds, crs, svc, n).Success?
            <==> forall i :: 0 <= i < n ==> PerLayerEntry(layers[i], infos[i], computeQueryBounds, crs, svc).Success?
    ensures PerLayerPrefix(layers, infos, computeQueryBounds, crs, svc, n).Failure? ==>
            exists i :: 0 <= i < n
              && PerLayerEntry(layers[i], infos[i], computeQueryBounds, crs, svc)
                 == Failure(PerLayerPrefix(layers, infos, computeQueryBounds, crs, svc, n).error)
              && forall j :: 0 <= j < i ==> PerLayerEntry(layers[j], infos[j], computeQueryBounds, crs, svc).Success?
    decreases n
  {
    if n > 0 {
      PerLayerFailureIsFirst(layers, infos, computeQueryBounds, crs, svc, n - 1);
      var prev := PerLayerPrefix(layers, infos, computeQueryBounds, crs, svc, n - 1);
      if prev.Success? {
        assert forall i :: 0 <= i < n - 1 ==> PerLayerEntry(layers[i], infos[i], computeQueryBounds, crs, svc).Success?;
      }
    }
  }

  /**
   * On success the list has one entry per layer, in layer order, and the aggregate is the
   * smallest envelope enclosing all of them, whatever their order.
   */
  lemma AggregateIsLeastEnclosing(layers: seq<MapLayer>, infos: seq<MapLayerInfo>, computeQueryBounds: bool,
                                  svc: Services, c: Envelope)
    requires |layers| == |infos|
    requires Aggregate(layers, infos, computeQueryBounds, svc).Success?
    ensures var b := Aggregate(layers, infos, computeQueryBounds, svc).value;
            && |b.perLayer| == |layers|
            && (forall i :: 0 <= i < |layers| ==>
                  PerLayerEntry(layers[i], infos[i], computeQueryBounds, svc.decodeCrs(Epsg4326, true).value, svc)
                  == Success(b.perLayer[i]))
            && (forall i :: 0 <= i < |layers| ==> Encloses(b.aggregate, b.perLayer[i]))
            && ((forall i :: 0 <= i < |layers| ==> Encloses(c, b.perLayer[i])) ==> Encloses(c, b.aggregate))
  {
    var b := Aggregate(layers, infos, computeQueryBounds, svc).value;
    forall i | 0 <= i < |layers| ensures Encloses(b.aggregate, b.perLayer[i]) {
      UnionAllEncloses(b.perLayer, i);
    }
    if forall i :: 0 <= i < |layers| ==> Encloses(c, b.perLayer[i]) {
      UnionAllLeast(b.perLayer, c);
    }
  }

  /**
   * The aggregation fails exactly when the aggregation system cannot be decoded or some layer
   * fails: its declared box throws, its bounds are null, or reprojecting them throws.
   */
  lemma AggregateFailsIff(layers: seq<MapLayer>, infos: seq<MapLayerInfo>, computeQueryBounds: bool, svc: Services)
    requires |layers| == |infos|
    ensures Aggregate(layers, infos, computeQueryBounds, svc).Failure?
            <==> (svc.decodeCrs(Epsg4326, true).None?
                  || exists i :: 0 <= i < |layers|
                       && PerLayerEntry(layers[i], infos[i], computeQueryBounds, svc.decodeCrs(Epsg4326, true).value, svc).Failure?)
  {
    var crs := svc.decodeCrs(Epsg4326, true);
    if crs.Some? {
      PerLayerFailureIsFirst(layers, infos, computeQueryBounds, crs.value, svc, |layers|);
    }
  }

  /** `computePerLayerQueryBounds`: one list entry per map layer, folded into an aggregate that starts null. */
  method ComputePerLayerQueryBounds(content: MapContent, lookAt: Option<LookAt>, svc: Services)
    returns (r: Result<LayerBoundsList, Failure>)
    requires |content.layers| == |content.request.layers|
    ensures r == Aggregate(content.layers, content.request.layers, lookAt.None?, svc)
  {
    // a caller-supplied LookAt makes the feature-query bounds unnecessary
    var computeQueryBounds := lookAt.None?;

    var crs := svc.decodeCrs(Epsg4326, true);
    if crs.None? {
      return Failure(CrsUnavailable);
    }
    var aggregatedBounds: Envelope := Null;
    var target: seq<Envelope> := [];

    var mapLayers := content.layers;
    var layerInfos := content.request.layers;
    for i := 0 to |mapLayers|
      invariant PerLayerPrefix(mapLayers, layerInfos, computeQueryBounds, crs.value, svc, i) == Success(target)
      invariant aggregatedBounds == UnionAll(target)
    {
      var layerLatLongBbox := ComputeLayerBounds(mapLayers[i], layerInfos[i], computeQueryBounds, svc);
      var failure: Option<Failure> := None;
      if layerLatLongBbox.Failure? {
        failure := Some(layerLatLongBbox.error);
      } else if layerLatLongBbox.value.None? {
        failure := Some(NullLayerBounds);
      } else {
        var t := svc.transform(layerLatLongBbox.value.value, crs.value);
        if t.None? {
          failure := Some(ReprojectionFailed);
        } else {
          UnionAllAppend(target, t.value);
          target := target + [t.value];
          aggregatedBounds := ExpandToInclude(aggregatedBounds, t.value);
        }
      }
      if failure.Some? {
        PerLayerFailureSticks(mapLayers, layerInfos, computeQueryBounds, crs.value, svc, i + 1, |mapLayers|);
        return Failure(failure.value);
      }
    }
    r := Success(LayerBoundsList(aggregatedBounds, target));
  }

  // ---------------------------------------------------------------------------------------
  // The links

  /** The style of layer `i`: the name of `styles[i]` when there is one, else `null`. */
  function StyleNameAt(styles: seq<Style>, i: nat): Option<string> {
    if i < |styles| then styles[i].name else None
  }

  /** The GeoWebCache KML service path of a layer: `.png.kml` for rasters, `.kml.kml` otherwise. */
  function GwcPath(prefixedName: string, isRaster: bool): string {
    GwcKmlServicePath + prefixedName + "." + (if isRaster then "png" else "kml") + ".kml"
  }

  /** The link handed to GeoWebCache; its href is used as built, not URL-decoded. */
  function GwcLink(request: RequestView, layer: MapLayerInfo, svc: Services): NetworkLink {
    NetworkLink("GWC-" + layer.prefixedName, None, None, None, None,
                Link(LinkTag, svc.buildUrl(request.baseUrl, GwcPath(layer.prefixedName, layer.isRaster)),
                     Some(Never), None))
  }

  /** The super-overlay link of a layer: a Region gate at its own bounds and a decoded GetMap href. */
  function RegionLink(request: RequestView, layer: MapLayerInfo, styleName: Option<string>, layerIndex: nat,
                      bounds: Envelope, svc: Services): NetworkLink
  {
    NetworkLink(layer.name, Some(true), Some(true), Some(svc.buildLookAt(bounds, request.formatOptions)),
                Some(Region(BoxOf(bounds), Lod(128.0, -1.0))),
                Link(LinkTag, svc.urlDecode(svc.getMapUrl(request, layer.name, layerIndex, styleName)), None, None))
  }

  /** The flat overlay link of a layer: a `<Url>` refreshed one second after the view stops. */
  function OverlayLink(request: RequestView, layer: MapLayerInfo, styleName: Option<string>, layerIndex: nat,
                       bounds: Envelope, svc: Services): NetworkLink
  {
    NetworkLink(layer.name, Some(true), Some(true), Some(svc.buildLookAt(bounds, request.formatOptions)), None,
                Link(UrlTag, svc.urlDecode(svc.getMapUrl(request, layer.name, layerIndex, styleName)),
                     Some(OnStop), Some(1.0)))
  }

  /** The GWC path starts with the service path and the layer name, and ends in `.png.kml` exactly for rasters. */
  lemma GwcPathShape(prefixedName: string, isRaster: bool)
    ensures var p := GwcPath(prefixedName, isRaster);
            && |p| == |GwcKmlServicePath| + |prefixedName| + 8
            && p[..|GwcKmlServicePath| + |prefixedName|] == GwcKmlServicePath + prefixedName
            && (p[|p| - 8..] == ".png.kml" <==> isRaster)
  {
    var p := GwcPath(prefixedName, isRaster);
    var ext := if isRaster then "png" else "kml";
    assert p == (GwcKmlServicePath + prefixedName) + ("." + ext + ".kml");
    assert p[|p| - 8..] == "." + ext + ".kml";
    if !isRaster {
      assert ("." + ext + ".kml")[1] == 'k';
    }
  }

  /** A GWC link delegates to the cache: named after the prefixed layer name, never refreshed, href as built. */
  lemma GwcLinkShape(request: RequestView, layer: MapLayerInfo, svc: Services)
    ensures var nl := GwcLink(request, layer, svc);
            && StrategyOf(nl) == CacheDelegated
            && nl.name[..4] == "GWC-" && nl.name[4..] == layer.prefixedName
            && nl.link.href == svc.buildUrl(request.baseUrl, GwcPath(layer.prefixedName, layer.isRaster))
            && nl.link.viewRefreshMode == Some(Never)
            && nl.abstractView.None? && nl.region.None?
  {
  }

  /**
   * A Region link gates loading on the layer's own bounds (read back from the box, they are the
   * bounds) with minLodPixels 128 and no maximum, and sets no refresh mode.
   */
  lemma RegionLinkShape(request: RequestView, layer: MapLayerInfo, styleName: Option<string>, layerIndex: nat,
                        bounds: Envelope, svc: Services)
    ensures var nl := RegionLink(request, layer, styleName, layerIndex, bounds, svc);
            && StrategyOf(nl) == RegionTiled
            && EnvelopeOf(nl.region.value.box) == bounds
            && nl.region.value.box == LatLonAltBox(MaxY(bounds), MinY(bounds), MaxX(bounds), MinX(bounds))
            && nl.region.value.lod == Lod(128.0, -1.0)
            && nl.open == Some(true) && nl.visibility == Some(true)
            && nl.abstractView == Some(svc.buildLookAt(bounds, request.formatOptions))
            && nl.link.viewRefreshMode.None?
            && nl.link.href == svc.urlDecode(svc.getMapUrl(request, layer.name, layerIndex, styleName))
  {
    BoxRoundTrip(bounds);
  }

  /** An overlay link refreshes on stop after one second and has no region gate. */
  lemma OverlayLinkShape(request: RequestView, layer: MapLayerInfo, styleName: Option<string>, layerIndex: nat,
                         bounds: Envelope, svc: Services)
    ensures var nl := OverlayLink(request, layer, styleName, layerIndex, bounds, svc);
            && StrategyOf(nl) == Flat
            && nl.link.viewRefreshMode == Some(OnStop) && nl.link.viewRefreshTime == Some(1.0)
            && nl.region.None?
            && nl.abstractView == Some(svc.buildLookAt(bounds, request.formatOptions))
            && nl.link.href == svc.urlDecode(svc.getMapUrl(request, layer.name, layerIndex, styleName))
  {
  }

  /** Whether the super-overlay mode of the request is "cached". */
  predicate CachedMode(request: RequestView, svc: Services) {
    svc.superoverlayMode(request) == Some("cached")
  }

  /** The link of layer `i` in super-overlay mode. */
  function SuperOverlayLinkAt(request: RequestView, perLayer: seq<Envelope>, cachedMode: bool, svc: Services, i: nat)
    : NetworkLink
    requires i < |request.layers| == |perLayer|
  {
    if cachedMode && svc.gwcCompatible(request, i) then GwcLink(request, request.layers[i], svc)
    else RegionLink(request, request.layers[i], StyleNameAt(request.styles, i), i, perLayer[i], svc)
  }

  /** The links super-overlay mode appends, one per requested layer, in layer order. */
  function SuperOverlayLinks(request: RequestView, perLayer: seq<Envelope>, cachedMode: bool, svc: Services)
    : (links: seq<NetworkLink>)
    requires |request.layers| == |perLayer|
    ensures |links| == |request.layers|
  {
    seq(|request.layers|, i requires 0 <= i < |request.layers| => SuperOverlayLinkAt(request, perLayer, cachedMode, svc, i))
  }

  /** The links overlay mode appends: each URL is built after the request's bbox was set to null. */
  function OverlayLinks(request: RequestView, perLayer: seq<Envelope>, svc: Services)
    : (links: seq<NetworkLink>)
    requires |request.layers| == |perLayer|
    ensures |links| == |request.layers|
  {
    seq(|request.layers|, i requires 0 <= i < |request.layers| =>
      OverlayLink(request.(bbox := None), request.layers[i], StyleNameAt(request.styles, i), i, perLayer[i], svc))
  }

  /** `encodeGWCLink`. */
  method EncodeGwcLink(container: Document, request: GetMapRequest, layer: MapLayerInfo, svc: Services)
    modifies container
    ensures container.links == old(container.links) + [GwcLink(request.View(), layer, svc)]
    ensures container.name == old(container.name) && container.abstractView == old(container.abstractView)
  {
    var prefixedName := layer.prefixedName;
    var name := "GWC-" + prefixedName;
    var kind := if layer.isRaster then "png" else "kml";
    var url := svc.buildUrl(request.baseUrl, GwcKmlServicePath + prefixedName + "." + kind + ".kml");
    container.AddNetworkLink(NetworkLink(name, None, None, None, None, Link(LinkTag, url, Some(Never), None)));
  }

  /** `encodeLayerSuperOverlay`; the bounds passed in are never null, so the LookAt is always set. */
  method EncodeLayerSuperOverlay(container: Document, request: GetMapRequest, layer: MapLayerInfo,
                                 styleName: Option<string>, layerIndex: nat, bounds: Envelope, svc: Services)
    modifies container
    ensures container.links == old(container.links) + [RegionLink(request.View(), layer, styleName, layerIndex, bounds, svc)]
    ensures container.name == old(container.name) && container.abstractView == old(container.abstractView)
  {
    var lookAt := svc.buildLookAt(bounds, request.formatOptions);
    var box := LatLonAltBox(MaxY(bounds), MinY(bounds), MaxX(bounds), MinX(bounds));
    var lod := Lod(128.0, -1.0);
    var href := svc.getMapUrl(request.View(), layer.name, layerIndex, styleName);
    href := svc.urlDecode(href);
    container.AddNetworkLink(NetworkLink(layer.name, Some(true), Some(true), Some(lookAt), Some(Region(box, lod)),
                                         Link(LinkTag, href, None, None)));
  }

  /** `encodeAsSuperOverlay`: bounds for every layer first, then a GWC or a Region link per layer. */
  method EncodeAsSuperOverlay(container: Document, content: MapContent, svc: Services) returns (o: Outcome<Failure>)
    requires |content.layers| == |content.request.layers|
    modifies container
    ensures var agg := Aggregate(content.layers, content.request.layers, true, svc);
            && (agg.Failure? ==> o == Fail(agg.error) && container.links == old(container.links))
            && (agg.Success? ==>
                  o == Pass && container.links == old(container.links)
                  + SuperOverlayLinks(content.request.View(), agg.value.perLayer, CachedMode(content.request.View(), svc), svc))
    ensures container.name == old(container.name) && container.abstractView == old(container.abstractView)
  {
    var request := content.request;
    var view := request.View();
    var cachedMode := svc.superoverlayMode(view) == Some("cached");

    var layers := request.layers;
    var bounds := ComputePerLayerQueryBounds(content, None, svc);
    if bounds.Failure? {
      return Fail(bounds.error);
    }
    var layerBounds := bounds.value.perLayer;
    var styles := request.styles;
    ghost var expected := SuperOverlayLinks(view, layerBounds, cachedMode, svc);
    for i := 0 to |layers|
      invariant container.links == old(container.links) + expected[..i]
      invariant container.name == old(container.name) && container.abstractView == old(container.abstractView)
    {
      var layer := layers[i];
      if cachedMode && svc.gwcCompatible(view, i) {
        EncodeGwcLink(container, request, layer, svc);
      } else {
        var styleName := if i < |styles| then styles[i].name else None;
        EncodeLayerSuperOverlay(container, request, layer, styleName, i, layerBounds[i], svc);
      }
      assert expected[..i + 1] == expected[..i] + [expected[i]];
    }
    assert expected[..|layers|] == expected;
    o := Pass;
  }

  /** `encodeAsOverlay`: a container LookAt from the aggregate, then a flat link per layer. */
  method EncodeAsOverlay(container: Document, content: MapContent, svc: Services) returns (o: Outcome<Failure>)
    requires |content.layers| == |content.request.layers|
    modifies container, content.request
    ensures var agg := Aggregate(content.layers, content.request.layers, true, svc);
            && (agg.Failure? ==>
                  o == Fail(agg.error) && container.Value() == old(container.Value())
                  && content.request.View() == old(content.request.View()))
            && (agg.Success? ==>
                  o == Pass
                  && container.name == old(container.name)
                  && container.abstractView == Some(svc.buildLookAt(agg.value.aggregate, content.request.formatOptions))
                  && container.links == old(container.links) + OverlayLinks(old(content.request.View()), agg.value.perLayer, svc)
                  && content.request.View() == old(content.request.View()).(bbox :=
                       if |content.layers| == 0 then old(content.request.bbox) else None))
  {
    var request := content.request;
    var formatOptions := request.formatOptions;
    ghost var view := request.View();

    var bounds := ComputePerLayerQueryBounds(content, None, svc);
    if bounds.Failure? {
      return Fail(bounds.error);
    }
    var aggregatedBounds := bounds.value.aggregate;
    var layerBounds := bounds.value.perLayer;
    // the aggregate is never a null reference, so the container always gets its LookAt
    container.SetAbstractView(svc.buildLookAt(aggregatedBounds, formatOptions));

    var layers := request.layers;
    var styles := request.styles;
    ghost var expected := OverlayLinks(view, layerBounds, svc);
    ghost var links0 := container.links;
    for i := 0 to |layers|
      invariant container.links == links0 + expected[..i]
      invariant container.name == old(container.name)
      invariant container.abstractView == Some(svc.buildLookAt(aggregatedBounds, formatOptions))
      invariant request.View() == view.(bbox := if i == 0 then view.bbox else None)
    {
      var layerInfo := layers[i];
      var lookAt := svc.buildLookAt(layerBounds[i], formatOptions);
      // the URL must carry no extent: the viewer adds its current view on refresh
      request.SetBbox(None);
      var style := if i < |styles| then styles[i].name else None;
      var href := svc.getMapUrl(request.View(), layerInfo.name, i, style);
      href := svc.urlDecode(href);
      container.AddNetworkLink(NetworkLink(layerInfo.name, Some(true), Some(true), Some(lookAt), None,
                                           Link(UrlTag, href, Some(OnStop), Some(1.0))));
      assert expected[..i + 1] == expected[..i] + [expected[i]];
    }
    assert expected[..|layers|] == expected;
    o := Pass;
  }

  // ---------------------------------------------------------------------------------------
  // produceMap

  /** The format the request is given back: plain KML for the KML network-link type, else plain KMZ. */
  function RestoredFormat(format: string): string {
    if format == KmlNetworkLinkMime then KmlMime else KmzMime
  }

  /** The response MIME type, from the request's format after the rewrite. */
  function MimeOf(format: string): string {
    if format == KmzNetworkLinkMime || format == KmzMime then KmzMime else KmlMime
  }

  /** The response is KMZ exactly when the incoming format was not the KML network-link type. */
  lemma MimeFollowsIncomingFormat(format: string)
    ensures MimeOf(RestoredFormat(format)) == (if format == KmlNetworkLinkMime then KmlMime else KmzMime)
    ensures (MimeOf(RestoredFormat(format)) == KmzMime) <==> format != KmlNetworkLinkMime
  {
    assert KmlMime[31] != KmzMime[31];
    assert |KmlMime| < |KmzNetworkLinkMime|;
  }

  /** The `kmltitle` option: absent means `null`; a non-string value fails the cast. */
  function TitleOption(options: FormatOptions): Result<Option<string>, Failure> {
    if "kmltitle" !in options then Success(None)
    else match options["kmltitle"]
      case Text(t) => Success(Some(t))
      case Flag(_) => Failure(OptionTypeMismatch("kmltitle"))
  }

  /** The `superoverlay` option: absent means false; a non-Boolean value fails the cast. */
  function SuperOverlayOption(options: FormatOptions): Result<bool, Failure> {
    if "superoverlay" !in options then Success(false)
    else match options["superoverlay"]
      case Flag(b) => Success(b)
      case Text(_) => Failure(OptionTypeMismatch("superoverlay"))
  }

  /** A missing `superoverlay` option means overlay mode; the document name is the `kmltitle` option, null when absent. */
  lemma FormatOptionDefaults(options: FormatOptions)
    ensures "superoverlay" !in options ==> SuperOverlayOption(options) == Success(false)
    ensures ("superoverlay" in options && options["superoverlay"].Flag?)
            ==> SuperOverlayOption(options) == Success(options["superoverlay"].flag)
    ensures "kmltitle" !in options ==> TitleOption(options) == Success(None)
    ensures ("kmltitle" in options && options["kmltitle"].Text?)
            ==> TitleOption(options) == Success(Some(options["kmltitle"].text))
  {
  }

  /** The document `produceMap` builds for a request whose format has already been restored. */
  function DocumentFor(request: RequestView, mapLayers: seq<MapLayer>, svc: Services): Result<DocumentValue, Failure>
    requires |mapLayers| == |request.layers|
  {
    match TitleOption(request.formatOptions)
    case Failure(e) => Failure(e)
    case Success(title) =>
      match SuperOverlayOption(request.formatOptions)
      case Failure(e) => Failure(e)
      case Success(superoverlay) =>
        match Aggregate(mapLayers, request.layers, true, svc)
        case Failure(e) => Failure(e)
        case Success(b) =>
          if superoverlay then
            Success(DocumentValue(title, None, SuperOverlayLinks(request, b.perLayer, CachedMode(request, svc), svc)))
          else
            Success(DocumentValue(title, Some(svc.buildLookAt(b.aggregate, request.formatOptions)),
                                  OverlayLinks(request, b.perLayer, svc)))
  }

  /** `produceMap`. */
  method ProduceMap(content: MapContent, svc: Services) returns (r: Result<KmlMap, Failure>)
    requires |content.layers| == |content.request.layers|
    modifies content.request
    ensures content.request.format == (if old(content.request.format) == KmlNetworkLinkMime then KmlMime else KmzMime)
    ensures var doc := DocumentFor(old(content.request.View()).(format := content.request.format), content.layers, svc);
            && (r.Success? <==> doc.Success?)
            && (r.Failure? ==> r.error == doc.error)
            && (r.Success? ==> fresh(r.value.document) && r.value.document.Value() == doc.value)
            && content.request.bbox == (if doc.Success? && SuperOverlayOption(content.request.formatOptions) == Success(false)
                                           && |content.layers| > 0
                                        then None else old(content.request.bbox))
    ensures r.Success? ==> r.value.mime == (if old(content.request.format) == KmlNetworkLinkMime then KmlMime else KmzMime)
    ensures r.Success? ==> r.value.mime == MimeOf(content.request.format)
  {
    var request := content.request;

    // back to the plain KML or KMZ type
    if KmlNetworkLinkMime == request.format {
      request.SetFormat(KmlMime);
    } else {
      request.SetFormat(KmzMime);
    }
    MimeFollowsIncomingFormat(old(request.format));
    ghost var view := request.View();

    var document := new Document();
    var kmltitle := TitleOption(request.formatOptions);
    if kmltitle.Failure? {
      return Failure(kmltitle.error);
    }
    document.SetName(kmltitle.value);

    var superoverlay := SuperOverlayOption(request.formatOptions);
    if superoverlay.Failure? {
      return Failure(superoverlay.error);
    }
    var encoded: Outcome<Failure>;
    if superoverlay.value {
      encoded := EncodeAsSuperOverlay(document, content, svc);
    } else {
      encoded := EncodeAsOverlay(document, content, svc);
    }
    if encoded.Fail? {
      return Failure(encoded.error);
    }

    var kmz := request.format == KmzNetworkLinkMime || request.format == KmzMime;
    var mime := if kmz then KmzMime else KmlMime;
    r := Success(KmlMap(document, mime));
  }

  // ---------------------------------------------------------------------------------------
  // Properties of the produced document

  /**
   * The strategy decision as the code takes it: cached mode is consulted only inside
   * super-overlay mode, and plain overlay mode always gives a flat link.
   */
  function SelectStrategy(superoverlay: bool, cachedMode: bool, gwcCompatible: bool): (s: Strategy)
    ensures s == CacheDelegated <==> superoverlay && cachedMode && gwcCompatible
    ensures s == Flat <==> !superoverlay
  {
    if !superoverlay then Flat
    else if cachedMode && gwcCompatible then CacheDelegated
    else RegionTiled
  }

  /**
   * Exactly one link per requested layer, in layer order, whose shape is the strategy
   * selected for that layer and whose name is the layer's (prefixed with "GWC-" for the cache).
   */
  lemma DocumentLinksFollowStrategy(request: RequestView, mapLayers: seq<MapLayer>, svc: Services)
    requires |mapLayers| == |request.layers|
    requires DocumentFor(request, mapLayers, svc).Success?
    ensures var doc := DocumentFor(request, mapLayers, svc).value;
            && doc.name == TitleOption(request.formatOptions).value
            && |doc.links| == |request.layers|
            && forall i :: 0 <= i < |doc.links| ==>
                 && StrategyOf(doc.links[i]) == SelectStrategy(SuperOverlayOption(request.formatOptions).value,
                                                               CachedMode(request, svc), svc.gwcCompatible(request, i))
                 && doc.links[i].name == (if StrategyOf(doc.links[i]) == CacheDelegated
                                          then "GWC-" + request.layers[i].prefixedName
                                          else request.layers[i].name)
  {
  }

  /**
   * Every region or flat link carries the LookAt of its own layer's bounds (those bounds are
   * never a null reference); GWC links carry none. Region links are gated on those bounds.
   */
  lemma DocumentLinksUseOwnBounds(request: RequestView, mapLayers: seq<MapLayer>, svc: Services)
    requires |mapLayers| == |request.layers|
    requires DocumentFor(request, mapLayers, svc).Success?
    ensures var doc := DocumentFor(request, mapLayers, svc).value;
            var perLayer := Aggregate(mapLayers, request.layers, true, svc).value.perLayer;
            forall i :: 0 <= i < |doc.links| ==>
              && (StrategyOf(doc.links[i]) == CacheDelegated <==> doc.links[i].abstractView.None?)
              && (StrategyOf(doc.links[i]) != CacheDelegated ==>
                    doc.links[i].abstractView == Some(svc.buildLookAt(perLayer[i], request.formatOptions)))
              && (StrategyOf(doc.links[i]) == RegionTiled ==> EnvelopeOf(doc.links[i].region.value.box) == perLayer[i])
  {
    var doc := DocumentFor(request, mapLayers, svc).value;
    var perLayer := Aggregate(mapLayers, request.layers, true, svc).value.perLayer;
    var superoverlay := SuperOverlayOption(request.formatOptions).value;
    var cachedMode := CachedMode(request, svc);
    assert doc.links == if superoverlay then SuperOverlayLinks(request, perLayer, cachedMode, svc)
                        else OverlayLinks(request, perLayer, svc);
    forall i | 0 <= i < |doc.links|
      ensures StrategyOf(doc.links[i]) == CacheDelegated <==> doc.links[i].abstractView.None?
      ensures StrategyOf(doc.links[i]) != CacheDelegated ==>
                doc.links[i].abstractView == Some(svc.buildLookAt(perLayer[i], request.formatOptions))
      ensures StrategyOf(doc.links[i]) == RegionTiled ==> EnvelopeOf(doc.links[i].region.value.box) == perLayer[i]
    {
      var layer := request.layers[i];
      var style := StyleNameAt(request.styles, i);
      if !superoverlay {
        OverlayLinkShape(request.(bbox := None), layer, style, i, perLayer[i], svc);
      } else if cachedMode && svc.gwcCompatible(request, i) {
        GwcLinkShape(request, layer, svc);
      } else {
        RegionLinkShape(request, layer, style, i, perLayer[i], svc);
      }
    }
  }

  /**
   * The container gets a LookAt exactly in overlay mode, built from the aggregate of all the
   * layers; and every overlay URL is built with the request's bbox set to null.
   */
  lemma ContainerLookAtOnlyInOverlay(request: RequestView, mapLayers: seq<MapLayer>, svc: Services)
    requires |mapLayers| == |request.layers|
    requires DocumentFor(request, mapLayers, svc).Success?
    ensures var doc := DocumentFor(request, mapLayers, svc).value;
            var agg := Aggregate(mapLayers, request.layers, true, svc).value;
            && (doc.abstractView.Some? <==> SuperOverlayOption(request.formatOptions) == Success(false))
            && (doc.abstractView.Some? ==> doc.abstractView.value == svc.buildLookAt(agg.aggregate, request.formatOptions))
            && (SuperOverlayOption(request.formatOptions) == Success(false) ==>
                  forall i :: 0 <= i < |doc.links| ==>
                    doc.links[i].link.href == svc.urlDecode(svc.getMapUrl(request.(bbox := None), request.layers[i].name, i,
                                                                          StyleNameAt(request.styles, i))))
  {
  }

  /** The per-layer bounds do not depend on the super-overlay mode or the GWC-compatibility test. */
  lemma {:induction false} PerLayerIgnoresModes(layers: seq<MapLayer>, infos: seq<MapLayerInfo>, computeQueryBounds: bool,
                                                crs: Crs, svc: Services, mode: RequestView -> Option<string>,
                                                compatible: (RequestView, nat) -> bool, n: nat)
    requires n <= |layers| <= |infos|
    ensures PerLayerPrefix(layers, infos, computeQueryBounds, crs, svc.(superoverlayMode := mode, gwcCompatible := compatible), n)
            == PerLayerPrefix(layers, infos, computeQueryBounds, crs, svc, n)
    decreases n
  {
    if n > 0 {
      PerLayerIgnoresModes(layers, infos, computeQueryBounds, crs, svc, mode, compatible, n - 1);
    }
  }

  /** Overlay mode never consults the cached mode nor GWC compatibility: the document is the same whatever they say. */
  lemma OverlayIgnoresCachedMode(request: RequestView, mapLayers: seq<MapLayer>, svc: Services,
                                 mode: RequestView -> Option<string>, compatible: (RequestView, nat) -> bool)
    requires |mapLayers| == |request.layers|
    requires SuperOverlayOption(request.formatOptions) == Success(false)
    ensures DocumentFor(request, mapLayers, svc.(superoverlayMode := mode, gwcCompatible := compatible))
            == DocumentFor(request, mapLayers, svc)
  {
    var svc' := svc.(superoverlayMode := mode, gwcCompatible := compatible);
    var crs := svc.decodeCrs(Epsg4326, true);
    if crs.Some? {
      PerLayerIgnoresModes(mapLayers, request.layers, true, crs.value, svc, mode, compatible, |mapLayers|);
    }
    assert Aggregate(mapLayers, request.layers, true, svc') == Aggregate(mapLayers, request.layers, true, svc);
    var agg := Aggregate(mapLayers, request.layers, true, svc);
    if agg.Success? {
      var perLayer := agg.value.perLayer;
      assert OverlayLinks(request, perLayer, svc') == OverlayLinks(request, perLayer, svc);
    }
  }

  /** Bounds are computed for every layer even in a super-overlay of GWC links, so a bounds failure aborts it too. */
  lemma BoundsFailureAborts(request: RequestView, mapLayers: seq<MapLayer>, svc: Services)
    requires |mapLayers| == |request.layers|
    requires TitleOption(request.formatOptions).Success? && SuperOverlayOption(request.formatOptions).Success?
    requires Aggregate(mapLayers, request.layers, true, svc).Failure?
    ensures DocumentFor(request, mapLayers, svc) == Failure(Aggregate(mapLayers, request.layers, true, svc).error)
  {
  }
}
