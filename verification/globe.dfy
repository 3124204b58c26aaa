/**
 The globe indicator: a small orthographic view of the Earth, rotated with
 the camera, with an outline, a graticule, the equator, the prime meridian
 and a marker at its centre.
 */
module Globe {
  import opened Geo
  import opened WorldCopies

  /** `[...Array(n).keys()]`: the integers 0, 1, ..., n - 1. */
  function Keys(n: nat): (ks: seq<int>)
    ensures |ks| == n
    ensures forall i :: 0 <= i < n ==> ks[i] == i
  {
    if n == 0 then [] else Keys(n - 1) + [n - 1]
  }

  /** The equator polyline: 361 points from `[-180, 0]` to `[180, 0]`. */
  function Equator(): (line: seq<LonLat>)
    ensures |line| == 361
    ensures forall i :: 0 <= i < 361 ==> line[i] == LonLat(i as real - 180.0, 0.0)
  {
    var ks := Keys(361);
    seq(|ks|, i requires 0 <= i < |ks| => LonLat(ks[i] as real - 180.0, 0.0))
  }

  /** The prime-meridian polyline: 181 points from `[0, -90]` to `[0, 90]`. */
  function PrimeMeridian(): (line: seq<LonLat>)
    ensures |line| == 181
    ensures forall i :: 0 <= i < 181 ==> line[i] == LonLat(0.0, i as real - 90.0)
  {
    var ks := Keys(181);
    seq(|ks|, i requires 0 <= i < |ks| => LonLat(0.0, ks[i] as real - 90.0))
  }

  /** The equator spans the full circle of longitude on latitude 0, one degree per segment. */
  lemma EquatorSpan()
    ensures Equator()[0] == LonLat(-180.0, 0.0) && Equator()[360] == LonLat(180.0, 0.0)
    ensures forall i :: 0 <= i < 360 ==> Equator()[i + 1].lon - Equator()[i].lon == 1.0
    ensures forall i :: 0 <= i < 361 ==> Equator()[i].lat == 0.0
  {
  }

  /** The prime meridian runs pole to pole on longitude 0, one degree per segment. */
  lemma PrimeMeridianSpan()
    ensures PrimeMeridian()[0] == LonLat(0.0, -90.0) && PrimeMeridian()[180] == LonLat(0.0, 90.0)
    ensures forall i :: 0 <= i < 180 ==> PrimeMeridian()[i + 1].lat - PrimeMeridian()[i].lat == 1.0
    ensures forall i :: 0 <= i < 181 ==> PrimeMeridian()[i].lon == 0.0
  {
  }

  /** The parameters handed to the orthographic projection. */
  datatype OrthoParams = OrthoParams(translate: (real, real), scale: real, rotate: (real, real, real))

  /** An SVG circle. */
  datatype Circle = Circle(cx: real, cy: real, r: real)

  /** The rotation the widget passes to its projection, `[lon, -lat, 0]`. */
  function GlobeRotationAsWritten(p: Position): (rot: (real, real, real))
    ensures CentredOn(rot) == LonLat(-p.lon, p.lat) && rot.2 == 0.0
  {
    (p.lon, -p.lat, 0.0)
  }

  /**
   As written, the globe is centred on the mirror image of the camera's
   longitude: at camera position (90, 0), where the map is centred on 90 E,
   the globe's centre shows 90 W.
   */
  lemma GlobeAsWrittenMirrorsLongitude()
    ensures var p := LonLat(90.0, 0.0);
      && CentredOn(GlobeRotationAsWritten(p)) == LonLat(-90.0, 0.0)
      && CentredOn(MercatorProjection(80, 80, p).rotate) == p
      && !SameMeridian(CentredOn(GlobeRotationAsWritten(p)).lon, p.lon)
  {
    if SameMeridian(-90.0, 90.0) {
      var k := TurnsBetween(-90.0, 90.0);
      assert false;
    }
  }

  /** The rotation that centres the globe on the camera position, as the map's does. */
  function GlobeRotation(p: Position): (rot: (real, real, real))
    ensures CentredOn(rot) == p && rot.2 == 0.0
  {
    (-p.lon, -p.lat, 0.0)
  }

  /**
   The globe's projection for a widget `size` pixels wide. Translate and scale
   are the widget's; the rotation is the corrected `GlobeRotation`, not the
   widget's `GlobeRotationAsWritten`.
   */
  function GlobeProjection(p: Position, size: real): (o: OrthoParams)
    ensures o.translate == (size / 2.0, size / 2.0)
    ensures o.scale == size / 2.0 - 2.0
    ensures CentredOn(o.rotate) == p
  {
    OrthoParams((size / 2.0, size / 2.0), size / 2.0 - 2.0, GlobeRotation(p))
  }

  /** One element appended to the widget's drawing surface. */
  datatype GlobeElement =
    | Outline(circle: Circle)
    | GraticulePath(projection: OrthoParams)
    | LinePath(projection: OrthoParams, points: seq<LonLat>)
    | CentreMarker(circle: Circle)

  /**
   One render of the widget: the surface is cleared, then the outline,
   the graticule, the equator, the prime meridian and the centre marker are
   appended in that order. The outline coincides with the projected sphere's
   rim and the marker sits at the projection centre.
   */
  function Redraw(p: Position, size: real): (content: seq<GlobeElement>)
    ensures |content| == 5
    ensures content[0].Outline? && content[1].GraticulePath? && content[2].LinePath?
      && content[3].LinePath? && content[4].CentreMarker?
    ensures var o := GlobeProjection(p, size);
      && content[0].circle == Circle(o.translate.0, o.translate.1, o.scale)
      && content[1].projection == o
      && content[2] == LinePath(o, Equator())
      && content[3] == LinePath(o, PrimeMeridian())
      && content[4].circle == Circle(o.translate.0, o.translate.1, 2.0)
  {
    var o := GlobeProjection(p, size);
    [Outline(Circle(size / 2.0, size / 2.0, size / 2.0 - 2.0)),
     GraticulePath(o),
     LinePath(o, Equator()),
     LinePath(o, PrimeMeridian()),
     CentreMarker(Circle(size / 2.0, size / 2.0, 2.0))]
  }

  /** The widget's size as the map embeds it. */
  const WidgetSize: real := 80.0

  /** The globe and the map look at the same point for every camera position. */
  lemma GlobeAndMapAgree(p: Position, width: int, height: int)
    ensures CentredOn(GlobeProjection(p, WidgetSize).rotate) == CentredOn(MercatorProjection(width, height, p).rotate)
  {
  }
}
