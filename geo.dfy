/**
 * Points, the constants the converter's constructor sets, and the floating-point
 * primitives the conversions call.
 *
 * Arithmetic is exact arithmetic on `real`: IEEE rounding is not modelled. The four
 * `Math` functions the source calls are not modelled either: they are handed to every
 * conversion as a `JsMath` value, so each property proved here holds for every choice
 * of them.
 */
module Geo {

  /** A `{lng, lat}` object: longitude and latitude in decimal degrees. */
  datatype Point = Point(lng: real, lat: real)

  /** `Math.sin`, `Math.cos`, `Math.sqrt` and `Math.atan2`. */
  datatype JsMath = JsMath(
    sin: real -> real,
    cos: real -> real,
    sqrt: real -> real,
    atan2: (real, real) -> real)

  /**
   * What the real primitives guarantee and a few proofs rely on: sine and cosine
   * stay in [-1, 1] and the square root of a positive number is positive.
   */
  ghost predicate WellBehaved(m: JsMath) {
    && (forall x :: -1.0 <= m.sin(x) <= 1.0)
    && (forall x :: -1.0 <= m.cos(x) <= 1.0)
    && (forall x :: 0.0 < x ==> 0.0 < m.sqrt(x))
  }

  /** `Math.PI`, written as the shortest decimal that reads back as that double. */
  const Pi: real := 3.141592653589793

  /** Semi-major axis of the Krasovsky 1940 ellipsoid, in metres (`this.a`). */
  const A: real := 6378245.0

  /** Eccentricity squared of that ellipsoid (`this.ee`). */
  const Ee: real := 0.006693421622965943

  /** The angular scale used by the BD09 polar step (`this.x_pi`). */
  const XPi: real := (Pi * 3000.0) / 180.0

  /** Mean Earth radius (`this.R`); set by the constructor, read by no conversion. */
  const R: real := 6378137.0

  /** `Math.abs`, which is exact. */
  function Abs(x: real): (r: real)
    ensures 0.0 <= r
    ensures r == x || r == -x
  {
    if x < 0.0 then -x else x
  }

  /**
   * Division as the conversions use it. JavaScript yields an infinity or NaN when the
   * divisor is zero; the model has no such values and yields 0 there instead.
   */
  function Quot(x: real, y: real): (r: real)
    ensures y != 0.0 ==> r * y == x
    ensures y == 0.0 ==> r == 0.0
  {
    if y == 0.0 then 0.0 else x / y
  }
}
