/** One pixel of a raster, and the floating-point primitives the raster
    expressions call.

    A pixel either holds a finite value or holds none. The model uses "no
    value" for a domain error of acos, sqrt, exp or pow, for a zero divisor
    and for a reducer over an empty window, and lets it propagate through
    the arithmetic of the expressions modelled here. */
module Pixels {

  datatype Pixel = Value(v: real) | NoData {

    predicate IsFailure() {
      NoData?
    }

    function PropagateFailure(): Pixel
      requires NoData?
    {
      NoData
    }

    function Extract(): real
      requires Value?
    {
      v
    }
  }

  /** Division of two pixel values. The model gives no value for a zero
      divisor; it does not follow Earth Engine's `divide`, which yields 0
      there. */
  function Div(a: real, b: real): (r: Pixel)
    ensures r.Value? <==> b != 0.0
    ensures r.Value? ==> r.v * b == a
  {
    if b == 0.0 then NoData else Value(a / b)
  }

  /** The transcendental functions of the expression language, left
      uninterpreted. sin, cos and tan of a finite double are finite; acos,
      exp, sqrt and pow can fail (a domain error or an overflow). */
  datatype Math = Math(
    sin: real -> real,
    cos: real -> real,
    tan: real -> real,
    acos: real -> Pixel,
    exp: real -> Pixel,
    sqrt: real -> Pixel,
    pow: (real, real) -> Pixel)

  /** sqrt is exact on the non-negative reals. */
  ghost predicate SqrtExact(m: Math) {
    forall x: real :: x >= 0.0 ==> m.sqrt(x).Value? && m.sqrt(x).v >= 0.0 && m.sqrt(x).v * m.sqrt(x).v == x
  }

  /** exp is defined, positive and non-decreasing everywhere. */
  ghost predicate ExpMonotone(m: Math) {
    && (forall x: real :: m.exp(x).Value? && m.exp(x).v > 0.0)
    && (forall x: real, y: real :: x <= y ==> m.exp(x).v <= m.exp(y).v)
  }

  lemma SquareRootUnique(r: real, a: real)
    requires r >= 0.0 && a >= 0.0 && r * r == a * a
    ensures r == a
  {
    assert (r - a) * (r + a) == 0.0;
    assert r - a == 0.0 || r + a == 0.0;
  }

  /** With an exact sqrt, the square root of a perfect square is its root. */
  lemma SqrtOfSquare(m: Math, a: real)
    requires SqrtExact(m) && a >= 0.0
    ensures m.sqrt(a * a) == Value(a)
  {
    var r := m.sqrt(a * a);
    assert r.Value? && r.v >= 0.0 && r.v * r.v == a * a;
    SquareRootUnique(r.v, a);
  }
}
