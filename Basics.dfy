/**
 * Shared values and arithmetic used by every part of the model: the
 * Option/Result wrappers standing for Python's None and raised exceptions,
 * 2-D integer points and rectangles, powers of two, floor division (Python's
 * `//` and `math.floor(a / b)`), `min(hi, max(lo, v))` clamps and Python's
 * round-half-to-even `round`.
 */
module Basics {

  datatype Option<T> = None | Some(value: T)

  /** The errors the modelled code raises (Python exceptions). */
  datatype Error =
    | InvalidZoom            // ValueError: zoom outside [min_zoom, max_zoom]
    | SectorOutOfBounds      // ValueError: sector rect outside the continent
    | SectorNotOrdered       // ValueError: sector rect not (top-left < bottom-right)
    | InvalidLabelAnchor     // ValueError: label anchor not in {l,m,r} x {t,m,b}
    | InvalidLayoutName      // ValueError: unknown map layout name
    | InvalidOverlayName     // ValueError: unknown map overlay name
    | NoLayoutChosen         // ValueError: neither continent nor layout given
    | EmptyParts             // ValueError: max() of an empty sequence
    | MissingKey             // KeyError: a key missing from a dict
    | DivisionByZero         // ZeroDivisionError: a float division by zero
    | ZeroRangeStep          // ValueError: range() with a step of 0

  datatype Result<T> = Ok(value: T) | Err(error: Error)

  /** An (x, y) pair: a continent coordinate, a tile index or a pixel. */
  datatype Point = Point(x: int, y: int)

  /** A ((left, top), (right, bottom)) pair of corners. */
  datatype Rect = Rect(topLeft: Point, bottomRight: Point)

  function Min(a: int, b: int): int { if a <= b then a else b }
  function Max(a: int, b: int): int { if a >= b then a else b }
  function MinReal(a: real, b: real): real { if a <= b then a else b }
  function MaxReal(a: real, b: real): real { if a >= b then a else b }

  /** Python's `min(hi, max(lo, v))`. */
  function Clamp(lo: int, hi: int, v: int): (r: int)
    requires lo <= hi
    ensures lo <= r <= hi
    ensures lo <= v <= hi ==> r == v
    ensures v < lo ==> r == lo
    ensures v > hi ==> r == hi
  {
    Min(hi, Max(lo, v))
  }

  /** Python's `max(lo, min(hi, v))` over reals. */
  function ClampReal(lo: real, hi: real, v: real): (r: real)
    requires lo <= hi
    ensures lo <= r <= hi
    ensures lo <= v <= hi ==> r == v
  {
    MaxReal(lo, MinReal(hi, v))
  }

  lemma ClampMonotone(lo: int, hi: int, a: int, b: int)
    requires lo <= hi && a <= b
    ensures Clamp(lo, hi, a) <= Clamp(lo, hi, b)
  {
  }

  function Pow2(n: nat): (r: nat)
    ensures r >= 1
  {
    if n == 0 then 1 else 2 * Pow2(n - 1)
  }

  lemma {:induction false} Pow2Add(a: nat, b: nat)
    ensures Pow2(a + b) == Pow2(a) * Pow2(b)
    decreases b
  {
    if b > 0 {
      Pow2Add(a, b - 1);
      assert Pow2(a + b) == 2 * Pow2(a + b - 1);
    }
  }

  /** `zoom_factor ** n` for the integer zoom factor 2, also for negative n. */
  function Pow2Real(n: int): (r: real)
    ensures r > 0.0
  {
    if n >= 0 then Pow2(n) as real else 1.0 / (Pow2(-n) as real)
  }

  /** The quotient of floor division is pinned down by its two bounds. */
  lemma FloorDivUnique(a: int, d: int, q: int)
    requires d > 0
    requires d * q <= a < d * q + d
    ensures a / d == q
  {
    var q', r := a / d, a % d;
    assert a == d * q' + r && 0 <= r < d;
    if q' < q {
      assert d * q' + d <= d * q by { MulLeftMonotone(d, q' + 1, q); }
    } else if q' > q {
      assert d * q + d <= d * q' by { MulLeftMonotone(d, q + 1, q'); }
    }
  }

  lemma MulLeftMonotone(d: int, a: int, b: int)
    requires d >= 0 && a <= b
    ensures d * a <= d * b
  {
  }

  /** Dafny's `/` is floor division whenever the divisor is positive. */
  lemma FloorDivBounds(a: int, d: int)
    requires d > 0
    ensures d * (a / d) <= a < d * (a / d) + d
  {
  }

  lemma FloorDivMonotone(a: int, b: int, d: int)
    requires d > 0 && a <= b
    ensures a / d <= b / d
  {
    FloorDivBounds(a, d);
    FloorDivBounds(b, d);
    if a / d > b / d {
      MulLeftMonotone(d, b / d + 1, a / d);
    }
  }

  /** Any k with d * k <= a is at most the floor quotient. */
  lemma FloorDivLowerBound(a: int, d: int, k: int)
    requires d > 0 && d * k <= a
    ensures k <= a / d
  {
    FloorDivBounds(a, d);
    if k > a / d {
      MulLeftMonotone(d, a / d + 1, k);
    }
  }

  lemma MulDivCancel(q: int, d: int)
    requires d > 0
    ensures (d * q) / d == q
  {
    FloorDivUnique(d * q, d, q);
  }

  /** Flooring twice is flooring by the product of the divisors. */
  lemma FloorDivNested(a: int, d1: int, d2: int)
    requires d1 > 0 && d2 > 0
    ensures (a / d1) / d2 == a / (d1 * d2)
  {
    var q1 := a / d1;
    var q2 := q1 / d2;
    FloorDivBounds(a, d1);
    FloorDivBounds(q1, d2);
    assert d1 * (d2 * q2) <= d1 * q1 by { MulLeftMonotone(d1, d2 * q2, q1); }
    assert d1 * q1 + d1 <= d1 * (d2 * q2 + d2) by { MulLeftMonotone(d1, q1 + 1, d2 * q2 + d2); }
    assert d1 * (d2 * q2) == (d1 * d2) * q2;
    assert d1 * (d2 * q2 + d2) == (d1 * d2) * q2 + d1 * d2;
    FloorDivUnique(a, d1 * d2, q2);
  }

  /** Python's `a // b` (floor division) for either sign of the divisor. */
  function FloorDiv(a: int, b: int): (q: int)
    requires b != 0
    ensures b > 0 ==> b * q <= a < b * q + b
    ensures b < 0 ==> b * q >= a > b * q + b
  {
    if b > 0 then a / b else (-a) / (-b)
  }

  /** Python's `round` on a float: nearest integer, ties to the even one. */
  function Round(r: real): (n: int)
    ensures r - 0.5 <= n as real <= r + 0.5
    ensures (n as real == r + 0.5 || n as real == r - 0.5) ==> n % 2 == 0
  {
    var f := r.Floor;
    var d := r - f as real;
    if d < 0.5 then f
    else if d > 0.5 then f + 1
    else if f % 2 == 0 then f
    else f + 1
  }

  /** The two bounds and the tie rule leave exactly one candidate. */
  lemma RoundUnique(r: real, n: int)
    requires r - 0.5 <= n as real <= r + 0.5
    requires (n as real == r + 0.5 || n as real == r - 0.5) ==> n % 2 == 0
    ensures Round(r) == n
  {
  }

  lemma RoundMonotone(a: real, b: real)
    requires a <= b
    ensures Round(a) <= Round(b)
  {
  }

  lemma RoundOfInt(k: int)
    ensures Round(k as real) == k
  {
    RoundUnique(k as real, k);
  }

  /** The point moved by `delta`. */
  function Translate(p: Point, delta: Point): Point
  {
    Point(p.x + delta.x, p.y + delta.y)
  }
}
