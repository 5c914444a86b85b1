/**
 * The KML 2.2 elements the network-link output writes, reduced to plain records, and the
 * KML `Document` container, whose name, view and list of network links are set and
 * appended to in place.
 */
module Kml {
  import opened Outcomes
  import opened Geometry

  /** KML's `viewRefreshMode` values. */
  datatype ViewRefreshMode = Never | OnRequest | OnStop | OnRegion

  /** Which KML element holds the link: `<Link>` or the older `<Url>`. */
  datatype LinkElement = LinkTag | UrlTag

  datatype Link = Link(
    element: LinkElement,
    href: string,
    viewRefreshMode: Option<ViewRefreshMode>,
    viewRefreshTime: Option<real>)

  datatype LatLonAltBox = LatLonAltBox(north: real, south: real, east: real, west: real)

  /** Level-of-detail gate; a `maxLodPixels` of -1 means "no upper bound". */
  datatype Lod = Lod(minLodPixels: real, maxLodPixels: real)

  datatype Region = Region(box: LatLonAltBox, lod: Lod)

  /** A camera directive; its fields come from the LookAt builder, not from this model. */
  datatype LookAt = LookAt(longitude: real, latitude: real, altitude: real, heading: real, tilt: real, range: real)

  /** A `<NetworkLink>`; the unset optional elements are `None`. */
  datatype NetworkLink = NetworkLink(
    name: string,
    open: Option<bool>,
    visibility: Option<bool>,
    abstractView: Option<LookAt>,
    region: Option<Region>,
    link: Link)

  /** The link strategies a network link can embody. */
  datatype Strategy = CacheDelegated | RegionTiled | Flat

  /** Reads the strategy off a link's shape: a region gate, a `<Url>` element, or neither. */
  function StrategyOf(nl: NetworkLink): Strategy {
    if nl.region.Some? then RegionTiled
    else if nl.link.element == UrlTag then Flat
    else CacheDelegated
  }

  /** The `<LatLonAltBox>` written for an envelope: north/south/east/west are maxY/minY/maxX/minX. */
  function BoxOf(e: Envelope): LatLonAltBox {
    LatLonAltBox(MaxY(e), MinY(e), MaxX(e), MinX(e))
  }

  /** Reads a `<LatLonAltBox>` back as an envelope; an inverted box is the null envelope. */
  function EnvelopeOf(b: LatLonAltBox): Envelope {
    if b.north < b.south || b.east < b.west then Null
    else Box(b.west, b.south, b.east, b.north)
  }

  /** The region box loses nothing: reading it back gives the layer's envelope, the null one included. */
  lemma BoxRoundTrip(e: Envelope)
    ensures EnvelopeOf(BoxOf(e)) == e
  {
  }

  /** The state of a KML document, as a value. */
  datatype DocumentValue = DocumentValue(name: Option<string>, abstractView: Option<LookAt>, links: seq<NetworkLink>)

  /** A KML `<Document>` being filled in. */
  class Document {
    var name: Option<string>
    var abstractView: Option<LookAt>
    var links: seq<NetworkLink>

    /** `kml.createAndSetDocument()`: an empty document. */
    constructor ()
      ensures name == None && abstractView == None && links == []
    {
      name := None;
      abstractView := None;
      links := [];
    }

    function Value(): DocumentValue
      reads this
    {
      DocumentValue(name, abstractView, links)
    }

    method SetName(n: Option<string>)
      modifies this
      ensures name == n
      ensures abstractView == old(abstractView) && links == old(links)
    {
      name := n;
    }

    method SetAbstractView(v: LookAt)
      modifies this
      ensures abstractView == Some(v)
      ensures name == old(name) && links == old(links)
    {
      abstractView := Some(v);
    }

    /** `createAndAddNetworkLink`: the new link goes after every link already there. */
    method AddNetworkLink(nl: NetworkLink)
      modifies this
      ensures links == old(links) + [nl]
      ensures name == old(name) && abstractView == old(abstractView)
    {
      links := links + [nl];
    }
  }
}
