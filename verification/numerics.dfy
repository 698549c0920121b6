/** Real-number stand-ins for the JavaScript `Math` object used by the core. */
module Numerics {

  /** `Math.PI`, as the decimal JavaScript prints for it. */
  const Pi: real := 3.141592653589793

  /** The transcendental `Math` functions the core calls. They cannot be
      computed over `real`, so every operation that needs them receives them
      as parameters; the predicates below state the facts a proof may use. */
  datatype MathFns = MathFns(sqrt: real -> real, sin: real -> real, cos: real -> real, acos: real -> real)

  /** `sqrt` returns the non-negative square root of every non-negative argument. */
  ghost predicate SqrtSound(m: MathFns) {
    forall x :: 0.0 <= x ==> 0.0 <= m.sqrt(x) && m.sqrt(x) * m.sqrt(x) == x
  }

  /** `sin` and `cos` stay within [-1, 1]. */
  ghost predicate TrigBounded(m: MathFns) {
    forall x :: -1.0 <= m.sin(x) <= 1.0 && -1.0 <= m.cos(x) <= 1.0
  }

  /** `sin` and `cos` satisfy the Pythagorean identity. */
  ghost predicate Pythagorean(m: MathFns) {
    forall x :: m.sin(x) * m.sin(x) + m.cos(x) * m.cos(x) == 1.0
  }

  /** A value `Math.random()` can return. */
  predicate InUnit(d: real) {
    0.0 <= d < 1.0
  }

  function Abs(x: real): real {
    if x < 0.0 then -x else x
  }

  function Min(a: real, b: real): real {
    if a <= b then a else b
  }

  function Max(a: real, b: real): real {
    if a >= b then a else b
  }

  /** `Math.max(Math.min(v, m), -m)`: the symmetric clamp both cores use.
      For `m >= 0` the result lies in [-m, m]; `ClampNearest` says which
      point of the interval it is. */
  function Clamp(v: real, m: real): (r: real)
    ensures 0.0 <= m ==> -m <= r <= m
  {
    Max(Min(v, m), -m)
  }

  /** For `m >= 0` the clamp is the point of [-m, m] nearest to `v`: `v`
      itself inside the interval, the nearer end outside it, never farther
      from zero than `v`. For a negative bound the lower clamp wins and the
      result is `-m`. */
  lemma ClampNearest(v: real, m: real)
    ensures 0.0 <= m && -m <= v <= m ==> Clamp(v, m) == v
    ensures 0.0 <= m && m < v ==> Clamp(v, m) == m
    ensures 0.0 <= m && v < -m ==> Clamp(v, m) == -m
    ensures 0.0 <= m ==> Abs(Clamp(v, m)) <= Abs(v)
    ensures m < 0.0 ==> Clamp(v, m) == -m
  {
  }

  /** `x` lies in [-b, b]. */
  predicate Within(x: real, b: real) {
    -b <= x <= b
  }

  /** A factor in [-1, 1] keeps a value inside a symmetric interval. */
  lemma FactorWithin(s: real, v: real, b: real)
    requires -1.0 <= s <= 1.0 && Within(v, b)
    ensures Within(v * s, b)
  {
    BoundedFactor(s, v);
  }

  /** `b` lies between `a` and `c`, in either order. */
  predicate Between(a: real, b: real, c: real) {
    (a <= b <= c) || (c <= b <= a)
  }

  /** A fraction `k` in [0, 1] of `d` lies between zero and `d`. */
  lemma FractionBetween(k: real, d: real)
    requires 0.0 <= k <= 1.0
    ensures Between(0.0, k * d, d)
  {
    if 0.0 <= d {
      MulNonneg(k, d);
      MulNonneg(1.0 - k, d);
      calc { d - k * d; == (1.0 - k) * d; >= 0.0; }
    } else {
      MulNonneg(k, -d);
      MulNonneg(1.0 - k, -d);
      calc { k * d; == -(k * (-d)); <= 0.0; }
      calc { k * d - d; == (1.0 - k) * (-d); >= 0.0; }
    }
  }

  /** A draw in [0, 1) scaled by a non-negative factor stays in [0, s], and
      below `s` when `s` is positive. */
  lemma UnitScaled(d: real, s: real)
    requires InUnit(d)
    ensures 0.0 <= s ==> 0.0 <= d * s <= s
    ensures 0.0 < s ==> d * s < s
  {
    assert s - d * s == (1.0 - d) * s;
  }

  /** `(Math.random() - 0.5) * s`: uniform noise centred on zero, within
      [-s/2, s/2) for a positive scale. */
  function Centered(d: real, s: real): (r: real)
    requires InUnit(d)
    ensures 0.0 <= s ==> -s / 2.0 <= r <= s / 2.0
    ensures 0.0 < s ==> r < s / 2.0
  {
    UnitScaled(d, s);
    (d - 0.5) * s
  }

  lemma SquareMonotone(x: real, y: real)
    requires 0.0 <= x < y
    ensures x * x < y * y
  {
    var p, q, r := x * x, x * y, y * y;
    assert p <= q;
    assert q < r;
  }

  /** Dividing a non-negative numerator by a larger positive denominator
      gives a smaller quotient. */
  lemma DivAntitone(s: real, a: real, b: real)
    requires 0.0 <= s && 0.0 < a <= b
    ensures s / b <= s / a
  {
    calc {
      s / b;
    == (s / a) * (a / b);
    <= { assert a / b <= 1.0; assert 0.0 <= s / a; }
      s / a;
    }
  }

  /** The square of a distance. Products reach the solver as one term
      this way, so facts about a square survive being passed around. */
  function Sq(x: real): (r: real)
    ensures 0.0 <= r
    ensures x != 0.0 ==> 0.0 < r
  {
    var r := x * x;
    assert x != 0.0 ==> 0.0 < r by {
      if x != 0.0 {
        calc { r; == x * x; > 0.0; }
      }
    }
    assert 0.0 <= r by {
      if x == 0.0 {
        calc { r; == x * x; == 0.0; }
      }
    }
    r
  }

  /** Squaring is monotone on non-negative reals. */
  lemma SquareLe(x: real, y: real)
    requires 0.0 <= x <= y
    ensures Sq(x) <= Sq(y)
  {
    calc { Sq(x); == x * x; <= x * y; <= y * y; == Sq(y); }
  }

  /** An inverse-square law weakens with distance. */
  lemma InverseSquareAntitone(s: real, d1: real, d2: real)
    requires 0.0 <= s && 0.0 < d1 <= d2
    ensures s / Sq(d2) <= s / Sq(d1)
  {
    SquareLe(d1, d2);
    DivAntitone(s, Sq(d1), Sq(d2));
  }

  lemma MulNonneg(a: real, b: real)
    requires 0.0 <= a && 0.0 <= b
    ensures 0.0 <= a * b
  {
  }

  /** A factor in [-1, 1], such as a sine or a cosine, never makes a value
      larger in magnitude. Stated as an implication so that functions can
      call it for any factor. */
  lemma BoundedFactor(s: real, v: real)
    ensures -1.0 <= s <= 1.0 ==> Abs(v * s) <= Abs(v) && Abs(s * v) <= Abs(v)
  {
    if -1.0 <= s <= 1.0 {
      if 0.0 <= v {
        MulNonneg(1.0 - s, v);
        MulNonneg(1.0 + s, v);
        calc { v - s * v; == (1.0 - s) * v; >= 0.0; }
        calc { v + s * v; == (1.0 + s) * v; >= 0.0; }
      } else {
        MulNonneg(1.0 - s, -v);
        MulNonneg(1.0 + s, -v);
        calc { s * v - v; == (1.0 - s) * (-v); >= 0.0; }
        calc { -v - s * v; == (1.0 + s) * (-v); >= 0.0; }
      }
    }
  }
}
