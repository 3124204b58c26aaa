/**
 The Mercator map's render pass (`createMap`): the projection parameters, and
 the three horizontally shifted copies of the land and country features that
 make panning across the antimeridian look seamless.

 Projection and path generation are left to the drawing library; the model
 keeps the parameters handed to it and the features it is asked to draw.
 */
module WorldCopies {
  import opened Wrappers
  import opened Geo

  /** A closed ring of `[lon, lat]` coordinates. */
  type Ring = seq<LonLat>

  /**
   A GeoJSON geometry, distinguished by its `type`: the two polygon kinds, and
   every other type (points, lines, collections) as one opaque case.
   */
  datatype Geometry =
    | Polygon(rings: seq<Ring>)
    | MultiPolygon(polygons: seq<seq<Ring>>)
    | OtherGeometry(points: seq<LonLat>)

  /** A GeoJSON feature: its geometry and its `properties.name`. */
  datatype Feature = Feature(geometry: Geometry, name: string)

  /** The two feature collections decoded from the world topology. */
  datatype GeoData = GeoData(land: seq<Feature>, countries: seq<Feature>)

  /** `s` is `r` with every longitude moved by `offset` and every latitude kept. */
  ghost predicate RingShifted(r: Ring, s: Ring, offset: real) {
    |s| == |r| && forall i :: 0 <= i < |r| ==> s[i].lon == r[i].lon + offset && s[i].lat == r[i].lat
  }

  /** `t` is the polygon `p` (a list of rings) shifted ring by ring. */
  ghost predicate PolygonShifted(p: seq<Ring>, t: seq<Ring>, offset: real) {
    |t| == |p| && forall i :: 0 <= i < |p| ==> RingShifted(p[i], t[i], offset)
  }

  /** `ring.map(coord => [coord[0] + offset, coord[1]])`. */
  function ShiftRing(r: Ring, offset: real): (s: Ring)
    ensures RingShifted(r, s, offset)
    decreases |r|
  {
    if |r| == 0 then [] else [LonLat(r[0].lon + offset, r[0].lat)] + ShiftRing(r[1..], offset)
  }

  /** The rings of one polygon, each shifted. */
  function ShiftPolygon(p: seq<Ring>, offset: real): (t: seq<Ring>)
    ensures PolygonShifted(p, t, offset)
    decreases |p|
  {
    if |p| == 0 then [] else [ShiftRing(p[0], offset)] + ShiftPolygon(p[1..], offset)
  }

  /** The polygons of a multi-polygon, each shifted. */
  function ShiftPolygons(ps: seq<seq<Ring>>, offset: real): (ts: seq<seq<Ring>>)
    ensures |ts| == |ps| && forall i :: 0 <= i < |ps| ==> PolygonShifted(ps[i], ts[i], offset)
    decreases |ps|
  {
    if |ps| == 0 then [] else [ShiftPolygon(ps[0], offset)] + ShiftPolygons(ps[1..], offset)
  }

  /** The coordinate shift of a cloned feature's geometry: only polygon kinds move. */
  function ShiftGeometry(g: Geometry, offset: real): (h: Geometry)
    ensures g.Polygon? <==> h.Polygon?
    ensures g.MultiPolygon? <==> h.MultiPolygon?
    ensures g.Polygon? ==> PolygonShifted(g.rings, h.rings, offset)
    ensures g.MultiPolygon? ==>
      (|h.polygons| == |g.polygons| &&
       forall i :: 0 <= i < |g.polygons| ==> PolygonShifted(g.polygons[i], h.polygons[i], offset))
    ensures g.OtherGeometry? ==> h == g
  {
    match g
    case Polygon(rings) => Polygon(ShiftPolygon(rings, offset))
    case MultiPolygon(polygons) => MultiPolygon(ShiftPolygons(polygons, offset))
    case OtherGeometry(_) => g
  }

  /** A shifted clone of a feature: same properties, shifted geometry. */
  function ShiftFeature(f: Feature, offset: real): (h: Feature)
    ensures h.name == f.name
    ensures h.geometry == ShiftGeometry(f.geometry, offset)
  {
    f.(geometry := ShiftGeometry(f.geometry, offset))
  }

  /** A ring shifted by `offset` and then by `-offset` is the ring it started as. */
  lemma RingShiftBack(r: Ring, s: Ring, b: Ring, offset: real)
    requires RingShifted(r, s, offset) && RingShifted(s, b, -offset)
    ensures b == r
  {
    assert forall i :: 0 <= i < |r| ==> b[i] == r[i];
  }

  /** A polygon shifted by `offset` and then by `-offset` is the polygon it started as. */
  lemma PolygonShiftBack(p: seq<Ring>, t: seq<Ring>, b: seq<Ring>, offset: real)
    requires PolygonShifted(p, t, offset) && PolygonShifted(t, b, -offset)
    ensures b == p
  {
    forall i | 0 <= i < |p|
      ensures b[i] == p[i]
    {
      RingShiftBack(p[i], t[i], b[i], offset);
    }
  }

  /** Shifting by `offset` and then by `-offset` gives back the original geometry. */
  lemma ShiftGeometryInverse(g: Geometry, offset: real)
    ensures ShiftGeometry(ShiftGeometry(g, offset), -offset) == g
  {
    var h := ShiftGeometry(g, offset);
    var back := ShiftGeometry(h, -offset);
    match g
    case Polygon(rings) =>
      PolygonShiftBack(rings, h.rings, back.rings, offset);
    case MultiPolygon(polygons) =>
      forall i | 0 <= i < |polygons|
        ensures back.polygons[i] == polygons[i]
      {
        PolygonShiftBack(polygons[i], h.polygons[i], back.polygons[i], offset);
      }
    case OtherGeometry(_) =>
  }

  /** The longitude offsets of the three world copies. */
  const CopyOffsets: seq<real> := [-360.0, 0.0, 360.0]

  /** Every feature of a collection, shifted by `offset`. */
  function ShiftAll(fs: seq<Feature>, offset: real): (hs: seq<Feature>)
    ensures |hs| == |fs|
    ensures forall i :: 0 <= i < |fs| ==> hs[i] == ShiftFeature(fs[i], offset)
    decreases |fs|
  {
    if |fs| == 0 then [] else [ShiftFeature(fs[0], offset)] + ShiftAll(fs[1..], offset)
  }

  /**
   The parameters handed to the Mercator projection. Its scale is
   `fitExtent / (2 * pi)`; the model keeps `fitExtent = min(width, 2 * height)`.
   */
  datatype MercatorParams = MercatorParams(
    fitExtent: real,
    center: LonLat,
    translate: (real, real),
    rotate: (real, real, real),
    precision: real)

  /** The point a `rotate([a, b, 0])` brings to the projection centre: `(-a, -b)`. */
  function CentredOn(rotate: (real, real, real)): LonLat {
    LonLat(-rotate.0, -rotate.1)
  }

  /** The Mercator projection for a `width` x `height` map looking at `p`. */
  function MercatorProjection(width: int, height: int, p: Position): (m: MercatorParams)
    ensures CentredOn(m.rotate) == p && m.rotate.2 == 0.0
    ensures m.fitExtent <= width as real && m.fitExtent <= 2.0 * height as real
    ensures m.fitExtent == width as real || m.fitExtent == 2.0 * height as real
    ensures m.translate == (width as real / 2.0, height as real / 2.0)
  {
    var w := width as real;
    var h := height as real;
    MercatorParams(if w <= 2.0 * h then w else 2.0 * h, Origin, (w / 2.0, h / 2.0), (-p.lon, -p.lat, 0.0), 0.1)
  }

  /** One group appended to the map's drawing surface. */
  datatype Layer =
    | Background(width: int, height: int)
    | Graticule
    | LandLayer(offset: real, features: seq<Feature>)
    | CountryLayer(offset: real, features: seq<Feature>)

  datatype MapScene = MapScene(projection: MercatorParams, layers: seq<Layer>)

  /** The land and country groups of one world copy. */
  function CopyLayers(data: GeoData, offset: real): seq<Layer> {
    [LandLayer(offset, ShiftAll(data.land, offset)), CountryLayer(offset, ShiftAll(data.countries, offset))]
  }

  /** The land and country groups of the copies at `offsets`, in order. */
  function CopiesLayers(data: GeoData, offsets: seq<real>): (ls: seq<Layer>)
    ensures |ls| == 2 * |offsets|
    ensures forall k :: 0 <= k < |offsets| ==>
      ls[2 * k] == LandLayer(offsets[k], ShiftAll(data.land, offsets[k])) &&
      ls[2 * k + 1] == CountryLayer(offsets[k], ShiftAll(data.countries, offsets[k]))
    decreases |offsets|
  {
    if |offsets| == 0 then [] else CopyLayers(data, offsets[0]) + CopiesLayers(data, offsets[1..])
  }

  /**
   `createMap`: nothing is drawn (and the previous drawing stays) before the
   data has loaded or while either dimension is zero; otherwise the surface is
   cleared and refilled with a background, the graticule and, for each of the
   offsets -360, 0 and +360, a land group and a country group.
   */
  function CreateMap(data: Option<GeoData>, width: int, height: int, p: Position): (r: Option<MapScene>)
    ensures r.None? <==> data.None? || width == 0 || height == 0
    ensures r.Some? ==> |r.value.layers| == 8
    ensures r.Some? ==> r.value.layers[0] == Background(width, height) && r.value.layers[1] == Graticule
    ensures r.Some? ==> forall k :: 0 <= k < 3 ==>
      r.value.layers[2 + 2 * k] == LandLayer(CopyOffsets[k], ShiftAll(data.value.land, CopyOffsets[k])) &&
      r.value.layers[3 + 2 * k] == CountryLayer(CopyOffsets[k], ShiftAll(data.value.countries, CopyOffsets[k]))
    ensures r.Some? ==> CentredOn(r.value.projection.rotate) == p
  {
    if data.None? || width == 0 || height == 0 then None
    else
      Some(MapScene(MercatorProjection(width, height, p),
                    [Background(width, height), Graticule] + CopiesLayers(data.value, CopyOffsets)))
  }

  /** The three copies sit one full turn apart, so each shows the same world on the same meridians. */
  lemma CopiesAreWholeTurns()
    ensures |CopyOffsets| == 3
    ensures forall k :: 0 <= k < 2 ==> CopyOffsets[k + 1] - CopyOffsets[k] == 360.0
    ensures forall k :: 0 <= k < 3 ==> SameMeridian(CopyOffsets[k], 0.0)
  {
    TurnsApart(-360.0, 0.0, -1);
    TurnsApart(0.0, 0.0, 0);
    TurnsApart(360.0, 0.0, 1);
  }
}
