# KML NetworkLink map output, and the cluster Event

This project models, in Dafny, two parts of GeoServer:

- `NetworkLinkMapOutputFormat` of the KML 2.2 community module. It answers a WMS GetMap
  request whose format is the KML or KMZ "network-link" MIME type. The answer is a KML
  document that holds one `<NetworkLink>` per requested layer; the globe viewer fetches each
  link later. The model covers:
  - the rewrite of the request format;
  - the choice between super-overlay and plain overlay output;
  - in super-overlay mode, the choice per layer between a GeoWebCache (GWC) link and a
    Region/Lod link;
  - the flat, view-refreshed links of overlay mode;
  - the per-layer bounds with their fallback chain;
  - the aggregation of the per-layer bounds into one envelope for the container's LookAt.
- `org.geoserver.cluster.Event`: the base class of events signalled across a cluster. It
  has a settable `source` (the originating node) and a UUID fixed at construction. Equality
  and the hash code depend on `source` alone.

Files:

- `outcomes.dfy`: `Option` (a nullable reference) and `Result`/`Outcome` (a call that may throw).
- `geometry.dfy`: the JTS envelope (`Null` or a well-formed `Box`), `expandToInclude`, and the
  fold over a list. It proves that the fold is the least enclosing envelope and that order
  does not matter.
- `kml.dfy`: the KML elements as records, and the `Document` container as a class whose
  name, view and list of links are changed in place.
- `network_link_format.dfy`: the GetMap request as a class with mutable `format` and `bbox`,
  the collaborators, the bounds pipeline, the three link builders, the encoders and `produceMap`.
- `event.dfy`: the `Event` class.

The collaborators are value-level functions in a `Services` record, so every property holds
whatever they do: `CRS.decode`, `ReferencedEnvelope.transform` (either may fail),
`WMSRequests.getGetMapUrl`, `ResponseUtils.buildURL`, `URLDecoder.decode`,
`LookAtDecoratorFactory.buildLookAt`, `KMLUtils.getSuperoverlayMode` and
`KMLUtils.isRequestGWCCompatible`. The data each layer gives back is part of the layer's
record: the result of `getFeatures(query).getBounds()` (throws, or an envelope that may be a
`null` reference) and of `getLatLongBoundingBox()` (an `IOException`, or a box that may be `null`).
A Java `null` reference is `None`. The null (empty) envelope is `Geometry.Null`.

Behaviour of the code worth noting, which the model keeps:

- The query bounds are attempted when the incoming flag holds and the filter is neither
  `null` nor `INCLUDE`, or when the feature count is limited. So an `INCLUDE` filter with a
  limited count still attempts them.
- An empty feature result does not fall back to the declared box. Only a `null` reference does.
- Cached (GWC) mode is consulted only in super-overlay mode. Overlay mode always gives flat links.
- Region links set no view-refresh mode. GWC hrefs are not URL-decoded.
- Only overlay mode sets a LookAt on the container.
- Any failure to compute bounds aborts the whole request, even a super-overlay made only of GWC links.
- Two null checks can never fail. `computePerLayerQueryBounds` never stores a `null` bounds
  entry, because reprojecting `null` throws first. And the aggregate is never `null`. So
  every region or flat link gets its LookAt, and so does the overlay container.

The MIME constants come from `KMLMapOutputFormat` and `KMZMapOutputFormat`, which are not
part of this model. They are taken as `application/vnd.google-earth.kml+xml` and
`application/vnd.google-earth.kmz`. Each network-link variant adds `;mode=networklink`.

## Model

| member | source | states |
|---|---|---|
| `NetworkLinkFormat.ProduceMap` | src/community/kml2/src/main/java/org/geoserver/kml/NetworkLinkMapOutputFormat.java:82-117 | the request format becomes plain KML iff it was the KML network-link type, else plain KMZ; the document is `DocumentFor` the rewritten request (or its error); the response MIME is KMZ iff the incoming format was not the KML network-link type; the bbox is nulled exactly by a successful overlay with at least one layer |
| `NetworkLinkFormat.MimeFollowsIncomingFormat` | src/community/kml2/src/main/java/org/geoserver/kml/NetworkLinkMapOutputFormat.java:86-113 | the MIME computed from the rewritten format is KMZ exactly when the incoming format was not the KML network-link type |
| `NetworkLinkFormat.FormatOptionDefaults` | src/community/kml2/src/main/java/org/geoserver/kml/NetworkLinkMapOutputFormat.java:95-103 | a missing `superoverlay` option means false; the document name is the `kmltitle` option, null when absent |
| `NetworkLinkFormat.SelectStrategy` | src/community/kml2/src/main/java/org/geoserver/kml/NetworkLinkMapOutputFormat.java:105-130 | a GWC link exactly when super-overlay, cached mode and GWC-compatible all hold; a flat link exactly in overlay mode |
| `NetworkLinkFormat.DocumentLinksFollowStrategy` | src/community/kml2/src/main/java/org/geoserver/kml/NetworkLinkMapOutputFormat.java:95-137 | one link per requested layer, in layer order; the shape of link i is the strategy selected for layer i; it is named after the layer, or "GWC-" + prefixed name; the document name is the title |
| `NetworkLinkFormat.DocumentLinksUseOwnBounds` | src/community/kml2/src/main/java/org/geoserver/kml/NetworkLinkMapOutputFormat.java:128-224 | region and flat links carry the LookAt of their own layer's bounds, GWC links none; a region gate reads back as that layer's bounds |
| `NetworkLinkFormat.ContainerLookAtOnlyInOverlay` | src/community/kml2/src/main/java/org/geoserver/kml/NetworkLinkMapOutputFormat.java:194-245 | the container has a LookAt iff in overlay mode, and it is built from the aggregate; every overlay href is built from the request with its bbox set to null |
| `NetworkLinkFormat.PerLayerIgnoresModes` | src/community/kml2/src/main/java/org/geoserver/kml/NetworkLinkMapOutputFormat.java:252-325 | the per-layer bounds do not depend on the super-overlay mode or the GWC-compatibility test |
| `NetworkLinkFormat.OverlayIgnoresCachedMode` | src/community/kml2/src/main/java/org/geoserver/kml/NetworkLinkMapOutputFormat.java:105-121 | in overlay mode the document is the same whatever the cached mode and the GWC test say |
| `NetworkLinkFormat.BoundsFailureAborts` | src/community/kml2/src/main/java/org/geoserver/kml/NetworkLinkMapOutputFormat.java:119-126 | once the options are read, a bounds failure aborts the request in either mode |
| `NetworkLinkFormat.EncodeAsSuperOverlay` | src/community/kml2/src/main/java/org/geoserver/kml/NetworkLinkMapOutputFormat.java:119-138 | after the aggregation succeeds, appends exactly the super-overlay links, one per layer in order; on a failure the container is unchanged; name and view are untouched |
| `NetworkLinkFormat.EncodeAsOverlay` | src/community/kml2/src/main/java/org/geoserver/kml/NetworkLinkMapOutputFormat.java:194-246 | on success, sets the container LookAt from the aggregate, appends one flat link per layer, and leaves the request's bbox null (unchanged when there are no layers); on a failure neither container nor request changes |
| `NetworkLinkFormat.EncodeGwcLink` | src/community/kml2/src/main/java/org/geoserver/kml/NetworkLinkMapOutputFormat.java:182-192 | appends exactly the GWC link of the layer |
| `NetworkLinkFormat.EncodeLayerSuperOverlay` | src/community/kml2/src/main/java/org/geoserver/kml/NetworkLinkMapOutputFormat.java:140-180 | appends exactly the Region link of the layer |
| `NetworkLinkFormat.GwcPathShape` | src/community/kml2/src/main/java/org/geoserver/kml/NetworkLinkMapOutputFormat.java:187-189 | the GWC path is "gwc/service/kml/" + prefixed name + a 8-character tail, which is ".png.kml" exactly for raster layers |
| `NetworkLinkFormat.GwcLinkShape` | src/community/kml2/src/main/java/org/geoserver/kml/NetworkLinkMapOutputFormat.java:182-192 | a GWC link is named "GWC-" + prefixed name, its href is the built URL with no decoding, its refresh mode is NEVER, and it has no LookAt and no region |
| `NetworkLinkFormat.RegionLinkShape` | src/community/kml2/src/main/java/org/geoserver/kml/NetworkLinkMapOutputFormat.java:140-180 | north/south/east/west are the layer's maxY/minY/maxX/minX, so the box reads back as the bounds; minLodPixels 128, maxLodPixels -1; open and visible; no refresh mode; decoded href |
| `NetworkLinkFormat.OverlayLinkShape` | src/community/kml2/src/main/java/org/geoserver/kml/NetworkLinkMapOutputFormat.java:212-245 | a flat link refreshes ON_STOP after 1 second, has no region, carries its layer's LookAt and a decoded href |
| `NetworkLinkFormat.SuperOverlayLinks` | src/community/kml2/src/main/java/org/geoserver/kml/NetworkLinkMapOutputFormat.java:128-137 | one super-overlay link per requested layer |
| `NetworkLinkFormat.OverlayLinks` | src/community/kml2/src/main/java/org/geoserver/kml/NetworkLinkMapOutputFormat.java:210-245 | one overlay link per requested layer |
| `NetworkLinkFormat.ComputeLayerBounds` | src/community/kml2/src/main/java/org/geoserver/kml/NetworkLinkMapOutputFormat.java:288-325 | the step-by-step flag and box updates give `LayerBounds`; the only failure is the declared box's IOException |
| `NetworkLinkFormat.WantsQueryBoundsCases` | src/community/kml2/src/main/java/org/geoserver/kml/NetworkLinkMapOutputFormat.java:295-300 | a null or INCLUDE filter with an unlimited count means no query bounds; a limited count always attempts them, even with INCLUDE; without the incoming flag only a limited count does |
| `NetworkLinkFormat.LayerBoundsFallback` | src/community/kml2/src/main/java/org/geoserver/kml/NetworkLinkMapOutputFormat.java:302-324 | the declared box is used when the query is not attempted or leaves the box null; non-null query bounds win; the layer fails iff it falls back and the declared box throws |
| `NetworkLinkFormat.UntransformedBoundsKept` | src/community/kml2/src/main/java/org/geoserver/kml/NetworkLinkMapOutputFormat.java:305-313 | when `getBounds` succeeds and the transform throws, the untransformed bounds are the layer's bounds |
| `NetworkLinkFormat.ComputePerLayerQueryBounds` | src/community/kml2/src/main/java/org/geoserver/kml/NetworkLinkMapOutputFormat.java:252-285 | the loop that appends to the list and expands the aggregate from the null envelope computes `Aggregate` (computing query bounds iff no LookAt is given) |
| `NetworkLinkFormat.PerLayerPrefix` | src/community/kml2/src/main/java/org/geoserver/kml/NetworkLinkMapOutputFormat.java:269-283 | after n layers the list has n entries, entry i being layer i's bounds reprojected into the aggregation system |
| `NetworkLinkFormat.Aggregate` | src/community/kml2/src/main/java/org/geoserver/kml/NetworkLinkMapOutputFormat.java:258-284 | on success the list has one entry per map layer |
| `NetworkLinkFormat.PerLayerFailureSticks` | src/community/kml2/src/main/java/org/geoserver/kml/NetworkLinkMapOutputFormat.java:275-280 | a failing layer aborts: no later layer changes the outcome |
| `NetworkLinkFormat.PerLayerFailureIsFirst` | src/community/kml2/src/main/java/org/geoserver/kml/NetworkLinkMapOutputFormat.java:269-283 | the list is produced iff every layer succeeds; otherwise the error is that of the first failing layer |
| `NetworkLinkFormat.AggregateFailsIff` | src/community/kml2/src/main/java/org/geoserver/kml/NetworkLinkMapOutputFormat.java:258-283 | the aggregation aborts exactly when decoding EPSG:4326 fails or some layer fails (declared box IOException, null bounds, or a reprojection that throws) |
| `NetworkLinkFormat.AggregateIsLeastEnclosing` | src/community/kml2/src/main/java/org/geoserver/kml/NetworkLinkMapOutputFormat.java:258-284 | on success, entry i is layer i's reprojected bounds, and the aggregate is the smallest envelope enclosing every entry |
| `Geometry.ExpandToInclude` | src/community/kml2/src/main/java/org/geoserver/kml/NetworkLinkMapOutputFormat.java:282 | the expanded envelope is the least envelope enclosing both operands; a null operand is the identity |
| `Geometry.UnionAllAppend` | src/community/kml2/src/main/java/org/geoserver/kml/NetworkLinkMapOutputFormat.java:281-282 | appending an entry and expanding the aggregate by it keep the aggregate equal to the fold of the list |
| `Geometry.UnionAllEncloses` | src/community/kml2/src/main/java/org/geoserver/kml/NetworkLinkMapOutputFormat.java:265-283 | the aggregate encloses every per-layer envelope |
| `Geometry.UnionAllLeast` | src/community/kml2/src/main/java/org/geoserver/kml/NetworkLinkMapOutputFormat.java:265-283 | every envelope enclosing all per-layer envelopes encloses the aggregate |
| `Geometry.UnionAllSmallLists` | src/community/kml2/src/main/java/org/geoserver/kml/NetworkLinkMapOutputFormat.java:265 | no layers give the null envelope; one layer gives its own envelope |
| `Geometry.UnionAllOrderIndependent` | src/community/kml2/src/main/java/org/geoserver/kml/NetworkLinkMapOutputFormat.java:269-283 | two lists holding the same envelopes have the same aggregate, whatever the order |
| `Geometry.ExpandCommutativeAssociative` | src/community/kml2/src/main/java/org/geoserver/kml/NetworkLinkMapOutputFormat.java:282 | expansion is commutative and associative |
| `Kml.BoxRoundTrip` | src/community/kml2/src/main/java/org/geoserver/kml/NetworkLinkMapOutputFormat.java:157-161 | a region box written from an envelope reads back as that envelope, the null envelope included |
| `Cluster.Event.constructor` | src/main/java/org/geoserver/cluster/Event.java:17-23 | a new Event has a null source and the UUID it was given |
| `Cluster.Event.SetSource` | src/main/java/org/geoserver/cluster/Event.java:33-43 | `getSource` returns the value last set; the UUID is a constant field |
| `Cluster.Event.ToString` | src/main/java/org/geoserver/cluster/Event.java:45-48 | "Event[" + source + "]", and "Event[null]" when unset |
| `Cluster.Event.HashCode` | src/main/java/org/geoserver/cluster/Event.java:50-53 | a Java int congruent to 31·(31 + hash(Event.class)) + hash(source) modulo 2^32, with 0 for a null source |
| `Cluster.EqualsIffSameSource` | src/main/java/org/geoserver/cluster/Event.java:55-61 | two Events are equal iff their sources are equal (null equals null); the UUID is ignored |
| `Cluster.NeverEqualsNull` | src/main/java/org/geoserver/cluster/Event.java:57-59 | an Event never equals null |
| `Cluster.EqualsIsEquivalence` | src/main/java/org/geoserver/cluster/Event.java:55-61 | `equals` is reflexive, symmetric and transitive |
| `Cluster.HashCodeConsistentWithEquals` | src/main/java/org/geoserver/cluster/Event.java:50-61 | equal Events have equal hash codes |

## Left out

- KML serialization: the JAK object tree, `KMLMap` and the content-disposition header are
  reduced to records and a `Document` class. A link record is built first and then appended,
  rather than appended first and then filled in; the final document is the same.
- Reprojection, CRS decoding and the envelopes' coordinate systems: they are an abstract
  partial function, so the identity law for reprojecting into the same system is not stated.
  Floating-point coordinates are `real`.
- Data access: `getFeatures`/`getBounds` and `getLatLongBoundingBox` are per-layer outcomes
  given as data, not I/O.
- The URL builders, the URL decoder, the LookAt builder, `getSuperoverlayMode` and
  `isRequestGWCCompatible` are opaque functions. The `UnsupportedEncodingException` of the
  decoder cannot happen for UTF-8 and is not modelled. The constant `false` passed to
  `buildLookAt` is dropped.
- Logging of absorbed bounds errors has no effect on the result and is left out.
- `getCapabilities` returns a constant and is not modelled.
- The map content is assumed to hold one map layer per requested layer. This is how
  GeoServer builds it. A length mismatch, which the code would report as an
  `IndexOutOfBoundsException`, is excluded by a precondition.
- Format options are parsed values, either strings or Booleans. A wrongly typed `kmltitle`
  or `superoverlay` fails like the source's cast.
- Event: the `Serializable` marker, the randomness of `UUID.randomUUID` (the UUID is a
  constructor argument), subclasses of `Event` (`instanceof` is a test for the class itself),
  and the cluster signalling around it. The source is a string node identifier. The identity
  hash of `Event.class` and `String.hashCode` are parameters of `HashCode`.
