/**
 Geographic positions and the longitude normalisation used by the
 coordinates display of the Mercator map.

 Positions are exact reals: the source computes with IEEE doubles, and its
 rounding is not part of this model.
 */
module Geo {

  /** A `[longitude, latitude]` pair in degrees, as the source's `[number, number]`. */
  datatype LonLat = LonLat(lon: real, lat: real)

  /** The camera position: longitude is unbounded, latitude is not clamped. */
  type Position = LonLat

  const Origin: Position := LonLat(0.0, 0.0)

  /** True when `q` is a whole number. */
  predicate IsInteger(q: real) {
    q.Floor as real == q
  }

  /** True when `a` and `b` differ by a whole number of full turns. */
  predicate SameMeridian(a: real, b: real) {
    IsInteger((a - b) / 360.0)
  }

  /** `a` and `b` are `k` full turns apart. */
  lemma TurnsApart(a: real, b: real, k: int)
    requires a - b == 360.0 * k as real
    ensures SameMeridian(a, b)
  {
    assert (a - b) / 360.0 == k as real;
  }

  /** The whole number of turns between two longitudes on the same meridian. */
  lemma TurnsBetween(a: real, b: real) returns (k: int)
    requires SameMeridian(a, b)
    ensures a - b == 360.0 * k as real
  {
    k := ((a - b) / 360.0).Floor;
  }

  lemma SameMeridianTrans(a: real, b: real, c: real)
    requires SameMeridian(a, b) && SameMeridian(b, c)
    ensures SameMeridian(a, c)
  {
    var m := TurnsBetween(a, b);
    var n := TurnsBetween(b, c);
    TurnsApart(a, c, m + n);
  }

  /** The two remainders of the display formula move by whole turns only. */
  lemma DisplayFormulaTurns(L: real, inner: real, outer: real)
    requires SameMeridian(L, inner) && SameMeridian(inner + 540.0, outer)
    ensures SameMeridian(outer - 180.0, L)
  {
    var m := TurnsBetween(L, inner);
    var n := TurnsBetween(inner + 540.0, outer);
    TurnsApart(outer - 180.0, L, 1 - n - m);
  }

  /** Truncation toward zero, the rounding JavaScript's `%` uses. */
  function Trunc(x: real): (t: int)
    ensures x >= 0.0 ==> t as real <= x < t as real + 1.0
    ensures x < 0.0 ==> t as real - 1.0 < x <= t as real
  {
    if x >= 0.0 then x.Floor else -((-x).Floor)
  }

  /**
   JavaScript's `x % 360` on numbers: the remainder of truncated division,
   which carries the sign of the dividend (unlike Dafny's Euclidean `%`).
   */
  function JsRem360(x: real): (r: real)
    ensures -360.0 < r < 360.0
    ensures x >= 0.0 ==> r >= 0.0
    ensures x <= 0.0 ==> r <= 0.0
    ensures SameMeridian(x, r)
  {
    var t := Trunc(x / 360.0);
    TurnsApart(x, x - 360.0 * t as real, t);
    x - 360.0 * t as real
  }

  /**
   The longitude the coordinates display shows: `((L % 360) + 540) % 360 - 180`
   with JavaScript's truncated remainder.
   */
  function NormalizeLongitude(L: real): (r: real)
    ensures -180.0 <= r < 180.0
    ensures SameMeridian(r, L)
  {
    var inner := JsRem360(L);
    var outer := JsRem360(inner + 540.0);
    DisplayFormulaTurns(L, inner, outer);
    outer - 180.0
  }

  /** Two longitudes in [-180, 180) on the same meridian are equal. */
  lemma NormalizeUnique(L: real, a: real, b: real)
    requires -180.0 <= a < 180.0 && -180.0 <= b < 180.0
    requires SameMeridian(a, L) && SameMeridian(b, L)
    ensures a == b
  {
    var m := TurnsBetween(a, L);
    var n := TurnsBetween(b, L);
    assert a - b == 360.0 * (m - n) as real;
  }

  /**
   An independent reference for the display longitude:
   `L - 360 * floor((L + 180) / 360)`.
   */
  lemma NormalizeIsFloorForm(L: real)
    ensures NormalizeLongitude(L) == L - 360.0 * ((L + 180.0) / 360.0).Floor as real
  {
    var k := ((L + 180.0) / 360.0).Floor;
    var f := L - 360.0 * k as real;
    TurnsApart(f, L, -k);
    NormalizeUnique(L, NormalizeLongitude(L), f);
  }

  /** A longitude already in [-180, 180) is displayed as it is. */
  lemma NormalizeInRange(L: real)
    requires -180.0 <= L < 180.0
    ensures NormalizeLongitude(L) == L
  {
    TurnsApart(L, L, 0);
    NormalizeUnique(L, NormalizeLongitude(L), L);
  }

  /** Moving a whole turn east or west does not change the displayed longitude. */
  lemma NormalizeFullTurn(L: real)
    ensures NormalizeLongitude(L + 360.0) == NormalizeLongitude(L)
  {
    var r := NormalizeLongitude(L + 360.0);
    TurnsApart(L + 360.0, L, 1);
    SameMeridianTrans(r, L + 360.0, L);
    NormalizeUnique(L, r, NormalizeLongitude(L));
  }

  /** Normalising a displayed longitude again changes nothing. */
  lemma NormalizeIdempotent(L: real)
    ensures NormalizeLongitude(NormalizeLongitude(L)) == NormalizeLongitude(L)
  {
    NormalizeInRange(NormalizeLongitude(L));
  }

  /** What the coordinates display shows for a position: normalised longitude, raw latitude. */
  function Displayed(p: Position): (d: LonLat)
    ensures d.lat == p.lat
    ensures -180.0 <= d.lon < 180.0 && SameMeridian(d.lon, p.lon)
  {
    LonLat(NormalizeLongitude(p.lon), p.lat)
  }
}
