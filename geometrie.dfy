// Points and the JavaScript numeric helpers (Math.floor, Math.ceil,
// Math.round, Math.min, Math.max and the truncating `%`) used by the
// geometry modules. Numbers are exact reals: floating-point rounding is not
// modelled.
module Geometrie {
  /** A point in pixels, millimetres or PDF points, depending on the caller. */
  datatype Point = Point(x: real, y: real)

  /** Math.floor. */
  function Floor(r: real): (f: int)
    ensures f as real <= r < f as real + 1.0
  {
    r.Floor
  }

  /** Math.ceil. */
  function Ceil(r: real): (c: int)
    ensures c as real - 1.0 < r <= c as real
  {
    -((-r).Floor)
  }

  /** Math.round: the nearest integer, halves rounded up (towards +infinity). */
  function JsRound(r: real): (n: int)
    ensures n as real - 0.5 <= r < n as real + 0.5
  {
    (r + 0.5).Floor
  }

  function MinR(a: real, b: real): (m: real)
    ensures m <= a && m <= b && (m == a || m == b)
  {
    if a <= b then a else b
  }

  function MaxR(a: real, b: real): (m: real)
    ensures m >= a && m >= b && (m == a || m == b)
  {
    if a >= b then a else b
  }

  function MinI(a: int, b: int): (m: int)
    ensures m <= a && m <= b && (m == a || m == b)
  {
    if a <= b then a else b
  }

  function MaxI(a: int, b: int): (m: int)
    ensures m >= a && m >= b && (m == a || m == b)
  {
    if a >= b then a else b
  }

  /**
   * The JavaScript remainder `a % b` on integers: it truncates towards zero,
   * so its sign is the sign of the dividend (Dafny's `%` is Euclidean).
   */
  function JsRem(a: int, b: int): (r: int)
    requires b > 0
    ensures a >= 0 ==> 0 <= r < b
    ensures a < 0 ==> -b < r <= 0
  {
    if a >= 0 then a % b else -((-a) % b)
  }

  /** `((a % 360) + 360) % 360` with JavaScript's truncating remainder is the Euclidean remainder. */
  lemma NormaliserAngle(orientation: int)
    ensures JsRem(JsRem(orientation, 360) + 360, 360) == orientation % 360
  {
    if orientation < 0 {
      var q, m := (-orientation) / 360, (-orientation) % 360;
      assert -orientation == 360 * q + m;
      assert JsRem(orientation, 360) + 360 == 360 - m;
      if m == 0 {
        Reste360(360, 1, 0);
        Reste360(orientation, -q, 0);
      } else {
        Reste360(360 - m, 0, 360 - m);
        Reste360(orientation, -q - 1, 360 - m);
      }
    } else {
      Reste360(orientation % 360 + 360, 1, orientation % 360);
    }
  }

  /** The Euclidean remainder by 360 is the r of any x == 360 q + r with 0 <= r < 360. */
  lemma Reste360(x: int, q: int, r: int)
    requires x == 360 * q + r && 0 <= r < 360
    ensures x % 360 == r
  {
  }

  /** `orientation % 90 !== 0` with JavaScript's truncating remainder tests divisibility. */
  lemma MultipleDe90(orientation: int)
    ensures JsRem(orientation, 90) == 0 <==> orientation % 90 == 0
  {
    if orientation < 0 {
      var m := (-orientation) % 90;
      assert -orientation == 90 * ((-orientation) / 90) + m;
    }
  }
}
