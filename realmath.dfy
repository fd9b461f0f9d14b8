/**
 * Abstract real-number stand-ins for the floating-point library calls the
 * simulator makes (`sqrt`, `exp`, `atan2`, `cos`, `sin` and the constant pi).
 *
 * Dafny has no transcendental functions over `real`, and every member here
 * needs a body, so the functions travel as a record of arrows. `Sound` states
 * the only facts any proof relies on; nothing else about them is assumed.
 */
module RealMath {

  datatype Math = Math(
    sqrt: real -> real,
    exp: real -> real,
    atan2: (real, real) -> real,
    cos: real -> real,
    sin: real -> real,
    pi: real)

  /** The facts about the library functions that the model relies on. */
  ghost predicate Sound(m: Math) {
    && (forall x :: x >= 0.0 ==> m.sqrt(x) >= 0.0 && m.sqrt(x) * m.sqrt(x) == x)
    && (forall x :: m.exp(x) > 0.0)
    && m.pi > 0.0
  }

  function Max(a: real, b: real): (r: real)
    ensures r >= a && r >= b && (r == a || r == b)
  {
    if a >= b then a else b
  }

  function Min(a: real, b: real): (r: real)
    ensures r <= a && r <= b && (r == a || r == b)
  {
    if a <= b then a else b
  }

  function Abs(a: real): (r: real)
    ensures r >= 0.0 && (r == a || r == -a)
  {
    if a >= 0.0 then a else -a
  }

  /** numpy's `clip(v, lo, hi)` for `lo <= hi`. */
  function Clip(v: real, lo: real, hi: real): (r: real)
    requires lo <= hi
    ensures lo <= r <= hi
    ensures lo <= v <= hi ==> r == v
    ensures v < lo ==> r == lo
    ensures v > hi ==> r == hi
  {
    if v < lo then lo else if v > hi then hi else v
  }

  /** Python's `int(q)`: truncation toward zero. */
  function Trunc(q: real): (n: int)
    ensures q >= 0.0 ==> 0 <= n && n as real <= q < n as real + 1.0
    ensures q < 0.0 ==> n <= 0 && n as real - 1.0 < q <= n as real
  {
    if q >= 0.0 then q.Floor else -((-q).Floor)
  }

  /** Python's float `a % b` for `b > 0` (floored remainder, sign of `b`). */
  function FloorMod(a: real, b: real): (r: real)
    requires b > 0.0
    ensures 0.0 <= r < b
  {
    var q := a / b;
    var f := q.Floor as real;
    var t := q - f;
    assert 0.0 <= t < 1.0;
    FractionOf(b, t);
    var w := b * t;
    assert b * q == a;
    assert w == b * q - b * f;
    a - b * f
  }

  /** The floored remainder is `a` less a whole number of `b`s: the floor of `a / b`. */
  lemma FloorModQuotient(a: real, b: real)
    requires b > 0.0
    ensures FloorMod(a, b) == a - b * (a / b).Floor as real
  {
  }

  lemma {:induction false} FloorModShift(a: real, b: real, k: int)
    requires b > 0.0
    ensures FloorMod(a + b * k as real, b) == FloorMod(a, b)
  {
    var q := a / b;
    var a' := a + b * k as real;
    assert a' / b == q + k as real by {
      assert b * q == a;
      assert b * (q + k as real) == a';
    }
    assert (q + k as real).Floor == q.Floor + k;
    assert b * (q.Floor + k) as real == b * q.Floor as real + b * k as real;
  }

  lemma {:induction false} FloorModSmall(a: real, b: real)
    requires b > 0.0 && 0.0 <= a < b
    ensures FloorMod(a, b) == a
  {
    var q := a / b;
    assert b * q == a;
    ScaleBounds(b, q);
    assert 0.0 <= q < 1.0;
    assert q.Floor == 0;
    FloorModQuotient(a, b);
  }

  /** A positive factor keeps a negative factor negative and one of at least 1 at least itself. */
  lemma ScaleBounds(b: real, q: real)
    requires b > 0.0
    ensures q < 0.0 ==> b * q < 0.0
    ensures q >= 1.0 ==> b * q >= b
  {
  }

  lemma SqrtNonNegative(m: Math, x: real)
    requires Sound(m) && x >= 0.0
    ensures m.sqrt(x) >= 0.0 && m.sqrt(x) * m.sqrt(x) == x
  {
  }

  /** The square root of a square is the non-negative root. */
  lemma {:induction false} SqrtOfSquare(m: Math, a: real)
    requires Sound(m) && a >= 0.0
    ensures m.sqrt(a * a) == a
  {
    var s := m.sqrt(a * a);
    SqrtNonNegative(m, a * a);
    assert (s - a) * (s + a) == 0.0;
    ZeroProduct(s - a, s + a);
  }

  /** `sqrt(v) == a` for a known non-negative root `a` of `v`. */
  lemma SqrtAt(m: Math, v: real, a: real)
    requires Sound(m) && a >= 0.0 && v == a * a
    ensures m.sqrt(v) == a
  {
    SqrtOfSquare(m, a);
  }

  lemma ZeroProduct(u: real, v: real)
    requires u * v == 0.0
    ensures u == 0.0 || v == 0.0
  {
  }

  lemma FractionOf(b: real, t: real)
    requires b > 0.0 && 0.0 <= t < 1.0
    ensures 0.0 <= b * t < b
  {
  }

  /** A positive argument has a positive root. */
  lemma {:induction false} SqrtPositive(m: Math, x: real)
    requires Sound(m) && x > 0.0
    ensures m.sqrt(x) > 0.0
  {
    SqrtNonNegative(m, x);
  }

  /** `(x, y) / d` is a unit vector when `d` is the length of `(x, y)`. */
  lemma UnitVector(x: real, y: real, d: real)
    requires d > 0.0 && d * d == x * x + y * y
    ensures (y / d) * (y / d) + (x / d) * (x / d) == 1.0
  {
    var u, w := y / d, x / d;
    QuotientSquare(y, d);
    QuotientSquare(x, d);
    calc {
      (u * u + w * w) * (d * d);
      u * u * (d * d) + w * w * (d * d);
      y * y + x * x;
      d * d;
    }
    CancelSquare(u * u + w * w, d);
  }

  lemma CancelSquare(s: real, d: real)
    requires d > 0.0 && s * (d * d) == d * d
    ensures s == 1.0
  {
    assert d * d > 0.0;
    assert (s - 1.0) * (d * d) == 0.0;
    ZeroProduct(s - 1.0, d * d);
  }

  lemma ScaledSquare(u: real, k: real)
    ensures (u * k) * (u * k) == (u * u) * (k * k)
  {
  }

  lemma QuotientSquare(v: real, d: real)
    requires d != 0.0
    ensures (v / d) * (v / d) * (d * d) == v * v
  {
    var q := v / d;
    assert q * d == v;
    assert q * q * (d * d) == (q * d) * (q * d);
  }
}
