/**
 * The parts of JavaScript number semantics that the modelled code relies on:
 * truncation toward zero, the `%` operator on numbers (whose result takes the
 * sign of the dividend, unlike Dafny's Euclidean `%`), `Math.floor`,
 * `Math.min`/`Math.max`, and the ToInt32 conversion applied by the bitwise
 * operators `<<` and `&`.
 *
 * Numbers are modelled as exact `real`s (no rounding, no NaN, no infinities);
 * where the code can produce NaN the calling module models that case itself.
 */
module JsNumber {

  const TwoTo31: int := 0x8000_0000
  const TwoTo32: int := 0x1_0000_0000

  /** Truncation toward zero (what `x % y` and `parseInt` use). */
  function Trunc(x: real): (r: int)
    ensures x >= 0.0 ==> r as real <= x < r as real + 1.0
    ensures x < 0.0 ==> r as real - 1.0 < x <= r as real
  {
    if x >= 0.0 then x.Floor else -((-x).Floor)
  }

  /** `Math.floor(x)`. */
  function Floor(x: real): (r: int)
    ensures r as real <= x < r as real + 1.0
  {
    x.Floor
  }

  /**
   * JavaScript's `a % b` for a positive divisor: `a - b * trunc(a / b)`.
   * The result has the sign of `a` and a smaller magnitude than `b`.
   */
  function Rem(a: real, b: real): (r: real)
    requires b > 0.0
    ensures a >= 0.0 ==> 0.0 <= r < b
    ensures a < 0.0 ==> -b < r <= 0.0
    ensures (a - r) / b == Trunc(a / b) as real
  {
    var q := Trunc(a / b);
    var r := a - b * (q as real);
    RemBounds(a, b, q, r);
    r
  }

  lemma RemBounds(a: real, b: real, q: int, r: real)
    requires b > 0.0 && q == Trunc(a / b) && r == a - b * (q as real)
    ensures a >= 0.0 ==> 0.0 <= r < b
    ensures a < 0.0 ==> -b < r <= 0.0
  {
    var t := a / b;
    assert b * t == a;
    Distribute(b, t, q as real, a, r);
    if a >= 0.0 {
      assert t >= 0.0;
      FractionBounds(b, t - q as real, r);
    } else {
      assert t < 0.0;
      NegativeFractionBounds(b, t - q as real, r);
    }
  }

  lemma Distribute(b: real, t: real, q: real, a: real, r: real)
    requires b * t == a && r == a - b * q
    ensures r == b * (t - q)
  {
  }

  lemma FractionBounds(b: real, f: real, r: real)
    requires b > 0.0 && 0.0 <= f < 1.0 && r == b * f
    ensures 0.0 <= r < b
  {
  }

  lemma NegativeFractionBounds(b: real, f: real, r: real)
    requires b > 0.0 && -1.0 < f <= 0.0 && r == b * f
    ensures -b < r <= 0.0
  {
  }

  /**
   * `a % b` on integral numbers with a positive divisor: the remainder of
   * division truncated toward zero, so it takes the sign of `a`.
   */
  function IntRem(a: int, b: int): (r: int)
    requires b > 0
    ensures a >= 0 ==> 0 <= r < b && r == a % b
    ensures a < 0 ==> -b < r <= 0
    ensures (a - r) % b == 0
  {
    RemCongruent(a, b);
    if a >= 0 then a % b else -((-a) % b)
  }

  /** Either remainder differs from the dividend by a multiple of `b`. */
  lemma RemCongruent(a: int, b: int)
    requires b > 0
    ensures (a - a % b) % b == 0
    ensures a < 0 ==> (a + (-a) % b) % b == 0
  {
    assert a - a % b == b * (a / b);
    MultipleRem(b, a / b);
    if a < 0 {
      var q := (-a) / b;
      assert a + (-a) % b == b * -q;
      MultipleRem(b, -q);
    }
  }

  /** A multiple of `b` leaves no remainder. */
  lemma MultipleRem(b: int, t: int)
    requires b > 0
    ensures (b * t) % b == 0
  {
    var x := b * t;
    var d := t - x / b;
    assert x % b == b * d;
  }

  function Min(a: real, b: real): (r: real)
    ensures r <= a && r <= b && (r == a || r == b)
  {
    if a <= b then a else b
  }

  function Max(a: real, b: real): (r: real)
    ensures r >= a && r >= b && (r == a || r == b)
  {
    if a >= b then a else b
  }

  function Abs(a: real): (r: real)
    ensures r >= 0.0 && (r == a || r == -a)
  {
    if a >= 0.0 then a else -a
  }

  /** `Math.sign(x)` for a non-NaN number. */
  function Sign(a: real): (r: real)
    ensures a > 0.0 ==> r == 1.0
    ensures a < 0.0 ==> r == -1.0
    ensures a == 0.0 ==> r == 0.0
  {
    if a > 0.0 then 1.0 else if a < 0.0 then -1.0 else 0.0
  }

  predicate IsInt32(x: int) {
    -TwoTo31 <= x < TwoTo31
  }

  /**
   * ToInt32 of an integral number: the unique signed 32-bit integer
   * congruent to `x` modulo 2^32.
   */
  function ToInt32(x: int): (r: int)
    ensures IsInt32(r)
    ensures (x - r) % TwoTo32 == 0
    ensures IsInt32(x) ==> r == x
  {
    var m := x % TwoTo32;
    if m >= TwoTo31 then m - TwoTo32 else m
  }

  /** ToInt32 only depends on the value modulo 2^32. */
  lemma ToInt32Congruent(x: int, y: int)
    requires (x - y) % TwoTo32 == 0
    ensures ToInt32(x) == ToInt32(y)
  {
    assert x % TwoTo32 == y % TwoTo32 by {
      var k := (x - y) / TwoTo32;
      assert x - y == k * TwoTo32;
      assert x == y + k * TwoTo32;
      ModShift(y, k);
    }
  }

  lemma ModShift(y: int, k: int)
    ensures (y + k * TwoTo32) % TwoTo32 == y % TwoTo32
  {
  }
}
