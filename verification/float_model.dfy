/**
 The arithmetic the swarmalator engine performs on `f64` values, stated over
 Dafny's exact `real` numbers.

 Addition, subtraction, multiplication and division by a non-zero value are
 taken as exact. The operations whose results the engine borrows from
 elsewhere (the square root, JavaScript's `Math.sin` and `Math.cos`) and the
 result of a division by zero are supplied from outside by a `Numerics`
 record, whose functions return arbitrary reals. The NaN and the infinities
 an IEEE division by zero yields are not reals, so a statement about a
 result that passes through such a division says nothing about the program
 for those inputs.
 */
module FloatModel {

  /** Stand-ins for the operations the model leaves uninterpreted. */
  datatype Numerics = Numerics(
    sqrt: real -> real,
    sin: real -> real,
    cos: real -> real,
    /** an arbitrary real standing for `x / 0.0`, which IEEE makes an infinity or NaN */
    divByZero: real -> real)

  /** `std::f64::consts::PI`, written in decimal. */
  const PI: real := 3.141592653589793

  /** The modulus the engine wraps phases with, `2.0 * PI`. */
  const TWO_PI: real := 2.0 * PI

  /** `f64::abs`. */
  function Abs(x: real): (r: real)
    ensures r >= 0.0
    ensures r == x || r == -x
  {
    if x < 0.0 then -x else x
  }

  /** `powi(2)`. */
  function Sq(x: real): real
  {
    x * x
  }

  /** Division `x / y` where `y` may be zero. */
  function Div(num: Numerics, x: real, y: real): real
  {
    if y == 0.0 then num.divByZero(x) else x / y
  }

  /** Rounding toward zero, the quotient C's `fmod` is built on. */
  function Trunc(q: real): (k: int)
    ensures q >= 0.0 ==> 0.0 <= q - k as real < 1.0
    ensures q <= 0.0 ==> -1.0 < q - k as real <= 0.0
  {
    if q >= 0.0 then q.Floor else -((-q).Floor)
  }

  /**
   Rust's `%` on `f64` (C's `fmod`): the remainder of `x` after removing a
   whole number of `y`s, with the sign of `x` and magnitude below `y`.
   */
  function Rem(x: real, y: real): (r: real)
    requires y > 0.0
    ensures -y < r < y
    ensures x >= 0.0 ==> r >= 0.0
    ensures x <= 0.0 ==> r <= 0.0
    ensures x - r == y * Trunc(x / y) as real
  {
    var k := Trunc(x / y);
    var r := x - y * k as real;
    RemainderBounds(x, y, k, r);
    r
  }

  /** What is left of `x` after removing `k` copies of `y`, for the truncated quotient `k`. */
  lemma RemainderBounds(x: real, y: real, k: int, r: real)
    requires y > 0.0
    requires k == Trunc(x / y) && r == x - y * k as real
    ensures -y < r < y
    ensures x >= 0.0 ==> r >= 0.0
    ensures x <= 0.0 ==> r <= 0.0
  {
    var q := x / y;
    var f := q - k as real;
    assert x == y * q;
    assert r == y * f by {
      Distribute(y, q, k as real);
    }
    assert x >= 0.0 ==> q >= 0.0;
    assert x <= 0.0 ==> q <= 0.0;
    ScaledFraction(y, f, r);
  }

  lemma Distribute(y: real, a: real, b: real)
    ensures y * a - y * b == y * (a - b)
  {
  }

  /** A fraction of magnitude below one, scaled by a positive `y`, stays within `y` and keeps its sign. */
  lemma ScaledFraction(y: real, f: real, r: real)
    requires y > 0.0 && -1.0 < f < 1.0 && r == y * f
    ensures -y < r < y
    ensures f >= 0.0 ==> r >= 0.0
    ensures f <= 0.0 ==> r <= 0.0
  {
  }

  /**
   The left fold `fold(NaN, |m, v| v.max(m))`: the largest element of a
   non-empty sequence (the NaN seed is dropped by the first `max`).
   */
  function MaxOf(ds: seq<real>): (m: real)
    requires |ds| > 0
    ensures m in ds
    ensures forall k :: 0 <= k < |ds| ==> ds[k] <= m
    decreases |ds|
  {
    if |ds| == 1 then ds[0]
    else
      var m := MaxOf(ds[..|ds| - 1]);
      var v := ds[|ds| - 1];
      if v > m then v else m
  }

  /** The left fold `fold(NaN, |m, v| v.min(m))`: the smallest element. */
  function MinOf(ds: seq<real>): (m: real)
    requires |ds| > 0
    ensures m in ds
    ensures forall k :: 0 <= k < |ds| ==> m <= ds[k]
    decreases |ds|
  {
    if |ds| == 1 then ds[0]
    else
      var m := MinOf(ds[..|ds| - 1]);
      var v := ds[|ds| - 1];
      if v < m then v else m
  }
}
