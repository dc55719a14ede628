/**
 * The six single-point conversions among GPS84 (WGS84), GCJ02 and BD09, and the
 * private correction polynomials they are built from.
 */
module Converter {
  import opened Geo

  /** Latitude correction polynomial `_transformLat`, on a point recentred at (105, 35). */
  function TransformLat(m: JsMath, x: real, y: real): real {
    -100.0 + 2.0 * x + 3.0 * y + 0.2 * y * y + 0.1 * x * y + 0.2 * m.sqrt(Abs(x))
    + ((20.0 * m.sin(6.0 * x * Pi) + 20.0 * m.sin(2.0 * x * Pi)) * 2.0) / 3.0
    + ((20.0 * m.sin(y * Pi) + 40.0 * m.sin((y / 3.0) * Pi)) * 2.0) / 3.0
    + ((160.0 * m.sin((y / 12.0) * Pi) + 320.0 * m.sin((y * Pi) / 30.0)) * 2.0) / 3.0
  }

  /** Longitude correction polynomial `_transformLng`, on a point recentred at (105, 35). */
  function TransformLng(m: JsMath, x: real, y: real): real {
    300.0 + x + 2.0 * y + 0.1 * x * x + 0.1 * x * y + 0.1 * m.sqrt(Abs(x))
    + ((20.0 * m.sin(6.0 * x * Pi) + 20.0 * m.sin(2.0 * x * Pi)) * 2.0) / 3.0
    + ((20.0 * m.sin(x * Pi) + 40.0 * m.sin((x / 3.0) * Pi)) * 2.0) / 3.0
    + ((150.0 * m.sin((x / 12.0) * Pi) + 300.0 * m.sin((x / 30.0) * Pi)) * 2.0) / 3.0
  }

  /** The polynomial part of `_transformLat`, without the square root and the sines. */
  function LatPolynomial(x: real, y: real): real {
    -100.0 + 2.0 * x + 3.0 * y + 0.2 * y * y + 0.1 * x * y
  }

  /** The polynomial part of `_transformLng`, without the square root and the sines. */
  function LngPolynomial(x: real, y: real): real {
    300.0 + x + 2.0 * y + 0.1 * x * x + 0.1 * x * y
  }

  /** `magic` = 1 - ee * sin(radLat)^2, where radLat is the latitude in radians. */
  function Magic(m: JsMath, lat: real): real {
    var s := m.sin((lat / 180.0) * Pi);
    1.0 - Ee * s * s
  }

  /** The divisor that turns the latitude correction into degrees. */
  function LatDivisor(m: JsMath, lat: real): real {
    var magic := Magic(m, lat);
    Quot(A * (1.0 - Ee), magic * m.sqrt(magic)) * Pi
  }

  /** The divisor that turns the longitude correction into degrees. */
  function LngDivisor(m: JsMath, lat: real): real {
    Quot(A, m.sqrt(Magic(m, lat))) * m.cos((lat / 180.0) * Pi) * Pi
  }

  /** `gps84ToGcj02`: add the ellipsoid-scaled correction to a GPS84 point. */
  function Gps84ToGcj02(m: JsMath, lng: real, lat: real): Point {
    var dLat := TransformLat(m, lng - 105.0, lat - 35.0);
    var dLng := TransformLng(m, lng - 105.0, lat - 35.0);
    Point(lng + Quot(dLng * 180.0, LngDivisor(m, lat)),
          lat + Quot(dLat * 180.0, LatDivisor(m, lat)))
  }

  /** `_transform`: a second copy, in the source, of the body of `gps84ToGcj02`. */
  function Transform(m: JsMath, lng: real, lat: real): Point {
    var dLat := TransformLat(m, lng - 105.0, lat - 35.0);
    var dLng := TransformLng(m, lng - 105.0, lat - 35.0);
    Point(lng + Quot(dLng * 180.0, LngDivisor(m, lat)),
          lat + Quot(dLat * 180.0, LatDivisor(m, lat)))
  }

  /**
   * The displacement `gps84ToGcj02` applies at a point: each correction polynomial,
   * taken at the recentred point, times 180 and divided by its axis' divisor.
   */
  function Offset(m: JsMath, lng: real, lat: real): (d: Point)
    ensures d.lng == Quot(TransformLng(m, lng - 105.0, lat - 35.0) * 180.0, LngDivisor(m, lat))
    ensures d.lat == Quot(TransformLat(m, lng - 105.0, lat - 35.0) * 180.0, LatDivisor(m, lat))
  {
    var g := Gps84ToGcj02(m, lng, lat);
    Point(g.lng - lng, g.lat - lat)
  }

  /**
   * `gcj02ToGps84`: the approximate inverse. It moves the point back by the offset
   * that the forward conversion would add AT THE SAME POINT, so the input is the
   * midpoint of the output and of the forward image of the input.
   */
  function Gcj02ToGps84(m: JsMath, lng: real, lat: real): (r: Point)
    ensures r.lng == 2.0 * lng - Gps84ToGcj02(m, lng, lat).lng
    ensures r.lat == 2.0 * lat - Gps84ToGcj02(m, lng, lat).lat
    ensures r == Point(lng - Offset(m, lng, lat).lng, lat - Offset(m, lng, lat).lat)
  {
    var coord := Transform(m, lng, lat);
    Point(lng * 2.0 - coord.lng, lat * 2.0 - coord.lat)
  }

  /** The additive BD09 shift on longitude. */
  const BdLngShift: real := 0.0065

  /** The additive BD09 shift on latitude. */
  const BdLatShift: real := 0.006

  /** `gcj02ToBd09`: polar distortion, then the additive BD09 shift. */
  function Gcj02ToBd09(m: JsMath, lng: real, lat: real): Point {
    var z := m.sqrt(lng * lng + lat * lat) + 0.00002 * m.sin(lat * XPi);
    var theta := m.atan2(lat, lng) + 0.000003 * m.cos(lng * XPi);
    Point(z * m.cos(theta) + BdLngShift, z * m.sin(theta) + BdLatShift)
  }

  /** `bd09ToGcj02`: remove the additive BD09 shift, then the opposite polar distortion. */
  function Bd09ToGcj02(m: JsMath, lng: real, lat: real): Point {
    var x := lng - BdLngShift;
    var y := lat - BdLatShift;
    var z := m.sqrt(x * x + y * y) - 0.00002 * m.sin(y * XPi);
    var theta := m.atan2(y, x) - 0.000003 * m.cos(x * XPi);
    Point(z * m.cos(theta), z * m.sin(theta))
  }

  /** `gps84ToBd09`: GPS84 to GCJ02, then GCJ02 to BD09. */
  function Gps84ToBd09(m: JsMath, lng: real, lat: real): Point {
    var gcj02 := Gps84ToGcj02(m, lng, lat);
    Gcj02ToBd09(m, gcj02.lng, gcj02.lat)
  }

  /** `bd09ToGps84`: BD09 to GCJ02, then GCJ02 to GPS84. */
  function Bd09ToGps84(m: JsMath, lng: real, lat: real): Point {
    var gcj02 := Bd09ToGcj02(m, lng, lat);
    Gcj02ToGps84(m, gcj02.lng, gcj02.lat)
  }

  /*
   * The polar step of the BD09 pair, with the sign of both correction terms as a
   * parameter: +1 for GCJ02 -> BD09 and -1 for BD09 -> GCJ02.
   */
  function PolarStep(m: JsMath, x: real, y: real, sign: real): Point {
    var z := m.sqrt(x * x + y * y) + sign * (0.00002 * m.sin(y * XPi));
    var theta := m.atan2(y, x) + sign * (0.000003 * m.cos(x * XPi));
    Point(z * m.cos(theta), z * m.sin(theta))
  }

  // ---------------------------------------------------------------------------
  // Properties of the conversions

  /** `_transform` computes exactly what `gps84ToGcj02` computes. */
  lemma TransformIsGps84ToGcj02(m: JsMath, lng: real, lat: real)
    ensures Transform(m, lng, lat) == Gps84ToGcj02(m, lng, lat)
  {
  }

  /** `gps84ToBd09` is the composition of `gps84ToGcj02` and `gcj02ToBd09`. */
  lemma Gps84ToBd09Composes(m: JsMath, lng: real, lat: real)
    ensures var g := Gps84ToGcj02(m, lng, lat);
            Gps84ToBd09(m, lng, lat) == Gcj02ToBd09(m, g.lng, g.lat)
  {
  }

  /** `bd09ToGps84` is the composition of `bd09ToGcj02` and `gcj02ToGps84`. */
  lemma Bd09ToGps84Composes(m: JsMath, lng: real, lat: real)
    ensures var g := Bd09ToGcj02(m, lng, lat);
            Bd09ToGps84(m, lng, lat) == Gcj02ToGps84(m, g.lng, g.lat)
  {
  }

  /**
   * GCJ02 -> BD09 applies the polar step with + signs and then adds (0.0065, 0.006);
   * BD09 -> GCJ02 subtracts (0.0065, 0.006) and then applies it with - signs.
   */
  lemma BdStepsMirror(m: JsMath, lng: real, lat: real)
    ensures var p := PolarStep(m, lng, lat, 1.0);
            Gcj02ToBd09(m, lng, lat) == Point(p.lng + BdLngShift, p.lat + BdLatShift)
    ensures Bd09ToGcj02(m, lng, lat) == PolarStep(m, lng - BdLngShift, lat - BdLatShift, -1.0)
  {
  }

  /**
   * In a GCJ02 -> BD09 -> GCJ02 round trip the additive shift cancels exactly: what is
   * left is the forward polar step followed by the backward one.
   */
  lemma BdShiftCancels(m: JsMath, lng: real, lat: real)
    ensures var b := Gcj02ToBd09(m, lng, lat);
            var p := PolarStep(m, lng, lat, 1.0);
            Bd09ToGcj02(m, b.lng, b.lat) == PolarStep(m, p.lng, p.lat, -1.0)
  {
    BdStepsMirror(m, lng, lat);
    var b := Gcj02ToBd09(m, lng, lat);
    var p := PolarStep(m, lng, lat, 1.0);
    BdStepsMirror(m, b.lng, b.lat);
    assert b.lng - BdLngShift == p.lng && b.lat - BdLatShift == p.lat;
  }

  /**
   * GCJ02 -> GPS84 -> GCJ02: the result misses the starting point by exactly the
   * difference of the forward offsets at the two points involved.
   */
  lemma GcjRoundTripError(m: JsMath, lng: real, lat: real)
    ensures var w := Gcj02ToGps84(m, lng, lat);
            var back := Gps84ToGcj02(m, w.lng, w.lat);
            back.lng - lng == Offset(m, w.lng, w.lat).lng - Offset(m, lng, lat).lng
            && back.lat - lat == Offset(m, w.lng, w.lat).lat - Offset(m, lng, lat).lat
  {
  }

  /**
   * GCJ02 -> GPS84 is an exact right inverse of GPS84 -> GCJ02 at a point exactly when
   * the forward offset is the same at the point and at its image.
   */
  lemma GcjRoundTripExactIff(m: JsMath, lng: real, lat: real)
    ensures var w := Gcj02ToGps84(m, lng, lat);
            Gps84ToGcj02(m, w.lng, w.lat) == Point(lng, lat)
            <==> Offset(m, w.lng, w.lat) == Offset(m, lng, lat)
  {
    GcjRoundTripError(m, lng, lat);
  }

  /**
   * GPS84 -> GCJ02 -> GPS84: the result misses the starting point by exactly the
   * difference of the forward offsets at the point and at its image.
   */
  lemma GpsRoundTripError(m: JsMath, lng: real, lat: real)
    ensures var g := Gps84ToGcj02(m, lng, lat);
            var back := Gcj02ToGps84(m, g.lng, g.lat);
            back.lng - lng == Offset(m, lng, lat).lng - Offset(m, g.lng, g.lat).lng
            && back.lat - lat == Offset(m, lng, lat).lat - Offset(m, g.lng, g.lat).lat
  {
  }

  /** GPS84 -> GCJ02 -> GPS84 is exact at a point exactly when the offset is the same at its image. */
  lemma GpsRoundTripExactIff(m: JsMath, lng: real, lat: real)
    ensures var g := Gps84ToGcj02(m, lng, lat);
            Gcj02ToGps84(m, g.lng, g.lat) == Point(lng, lat)
            <==> Offset(m, g.lng, g.lat) == Offset(m, lng, lat)
  {
    GpsRoundTripError(m, lng, lat);
  }

  /**
   * With well-behaved primitives the latitude divisor is positive, and the longitude
   * divisor is zero exactly when the cosine of the latitude is: only there does the
   * model's zero-divisor stand-in come into play.
   */
  lemma DivisorsVanishOnlyWithCosine(m: JsMath, lat: real)
    requires WellBehaved(m)
    ensures 0.0 < LatDivisor(m, lat)
    ensures LngDivisor(m, lat) == 0.0 <==> m.cos((lat / 180.0) * Pi) == 0.0
  {
    var s := m.sin((lat / 180.0) * Pi);
    assert -1.0 <= s <= 1.0;
    assert s * s <= 1.0 by {
      if 0.0 <= s { assert s * s <= 1.0 * s; } else { assert s * s <= (-1.0) * s; }
    }
    var magic := Magic(m, lat);
    assert 0.0 < magic;
    var root := m.sqrt(magic);
    assert 0.0 < root;
    assert 0.0 < magic * root;
    var q := Quot(A * (1.0 - Ee), magic * root);
    assert q * (magic * root) == A * (1.0 - Ee);
    assert 0.0 < q;
    assert LatDivisor(m, lat) == q * Pi;
    var qa := Quot(A, root);
    assert qa * root == A;
    assert 0.0 < qa;
  }

  /**
   * With well-behaved primitives both corrections of `gps84ToGcj02` are ordinary
   * divisions, the longitude one wherever the cosine of the latitude is not zero.
   */
  lemma Gps84ToGcj02Scaling(m: JsMath, lng: real, lat: real)
    requires WellBehaved(m)
    ensures 0.0 < LatDivisor(m, lat)
    ensures var g := Gps84ToGcj02(m, lng, lat);
            g.lat - lat == TransformLat(m, lng - 105.0, lat - 35.0) * 180.0 / LatDivisor(m, lat)
    ensures var g := Gps84ToGcj02(m, lng, lat);
            m.cos((lat / 180.0) * Pi) != 0.0 ==>
            LngDivisor(m, lat) != 0.0 &&
            g.lng - lng == TransformLng(m, lng - 105.0, lat - 35.0) * 180.0 / LngDivisor(m, lat)
  {
    DivisorsVanishOnlyWithCosine(m, lat);
  }

  /**
   * With well-behaved primitives the three families of sine terms move
   * `_transformLat` at most 1160/3 away from its polynomial and square-root part.
   */
  lemma TransformLatRipple(m: JsMath, x: real, y: real)
    requires WellBehaved(m)
    ensures var base := LatPolynomial(x, y) + 0.2 * m.sqrt(Abs(x));
            base - 1160.0 / 3.0 <= TransformLat(m, x, y) <= base + 1160.0 / 3.0
  {
  }

  /**
   * With well-behaved primitives the three families of sine terms move
   * `_transformLng` at most 1100/3 away from its polynomial and square-root part.
   */
  lemma TransformLngRipple(m: JsMath, x: real, y: real)
    requires WellBehaved(m)
    ensures var base := LngPolynomial(x, y) + 0.1 * m.sqrt(Abs(x));
            base - 1100.0 / 3.0 <= TransformLng(m, x, y) <= base + 1100.0 / 3.0
  {
  }
}
