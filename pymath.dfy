/** The parts of Python's `math` module that the circular-motion equations
    use (`math.tau`, `math.pi`, `math.sqrt`, `math.radians`, `math.degrees`),
    over exact reals instead of IEEE-754 doubles. */
module PyMath {

  /** `math.tau`, the circle constant (one full turn in radians), written
      with the digits Python prints for it. */
  const TAU: real := 6.283185307179586

  /** `math.pi`, half a turn. */
  const PI: real := TAU / 2.0

  /** `y` is the non-negative square root of `x`. */
  ghost predicate IsSqrt(x: real, y: real) {
    y >= 0.0 && y * y == x
  }

  /** `x` has a non-negative square root. Dafny's reals carry no
      completeness axiom, so this cannot be proved for every `x >= 0`; it is
      proved for squares (`SqrtOfSquare`) and assumed nowhere. */
  ghost predicate HasSqrt(x: real) {
    exists y :: IsSqrt(x, y)
  }

  /** `math.sqrt`, which raises on a negative argument. Where `x` has a root
      this is that root; the fallback `1.0` is only there to keep the
      function total and is never reached for an argument with a root. */
  ghost function Sqrt(x: real): (y: real)
    requires x >= 0.0
    ensures y >= 0.0
    ensures x > 0.0 ==> y > 0.0
    ensures HasSqrt(x) ==> IsSqrt(x, y)
  {
    if HasSqrt(x) then var y :| IsSqrt(x, y); y else 1.0
  }

  /** A non-negative square root is unique, so `Sqrt` returns it. */
  lemma SqrtUnique(x: real, y: real)
    requires IsSqrt(x, y)
    ensures Sqrt(x) == y
  {
    assert HasSqrt(x);
    var z := Sqrt(x);
    assert IsSqrt(x, z);
    assert (z - y) * (z + y) == 0.0;
    ZeroProduct(z - y, z + y);
  }

  /** A product of positive reals is positive. A solver hint: called where
      the surrounding proof would otherwise exceed its resource limit. */
  lemma PositiveProduct(x: real, y: real)
    requires x > 0.0 && y > 0.0
    ensures x * y > 0.0
  {
  }

  /** A factor of a positive product with a positive cofactor is positive.
      A solver hint, like `PositiveProduct`. */
  lemma PositiveFactor(a: real, y: real)
    requires y > 0.0 && a * y > 0.0
    ensures a > 0.0
  {
  }

  /** Bounds on `x` from bounds on the product `x * y` with positive `y`. */
  lemma Tighten(x: real, y: real, c: real, lo: real, hi: real)
    requires y > 0.0 && x * y == c && lo * y < c && c < hi * y
    ensures lo < x < hi
  {
    PositiveFactor(x - lo, y);
    PositiveFactor(hi - x, y);
  }

  /** Bounds on a positive number from bounds on its square. */
  lemma RootBetween(v: real, lo: real, hi: real)
    requires lo > 0.0 && hi > 0.0 && v > 0.0 && lo * lo < v * v < hi * hi
    ensures lo < v < hi
  {
    assert (v - lo) * (v + lo) == v * v - lo * lo;
    PositiveFactor(v - lo, v + lo);
    assert (hi - v) * (hi + v) == hi * hi - v * v;
    PositiveFactor(hi - v, hi + v);
  }

  /** Bounds on the square of a number from bounds on the number. */
  lemma SquareBetween(v: real, lo: real, hi: real)
    requires 0.0 < lo < v < hi
    ensures lo * lo < v * v < hi * hi
  {
    assert v * v - lo * lo == (v - lo) * (v + lo);
    PositiveProduct(v - lo, v + lo);
    assert hi * hi - v * v == (hi - v) * (hi + v);
    PositiveProduct(hi - v, hi + v);
  }

  /** Dividing `x` by a positive `s` gives the factor that restores `x`;
      when `s` is a root of `x * r`, that factor squared times `r` is `x`. */
  lemma QuotientByRoot(x: real, r: real, s: real)
    requires s > 0.0 && x * r > 0.0
    ensures (x / s) * s == x
    ensures s * s == x * r ==> (x / s) * (x / s) * r == x
  {
    var w := x / s;
    if s * s == x * r {
      assert (w * s) * (w * s) == x * x;
      assert (w * w * r) * x == x * x;
      CancelFactor(w * w * r, x, x);
    }
  }

  /** A non-zero factor cancels. */
  lemma CancelFactor(p1: real, p2: real, y: real)
    requires y != 0.0 && p1 * y == p2 * y
    ensures p1 == p2
  {
    assert (p1 - p2) * y == 0.0;
    ZeroProduct(p1 - p2, y);
  }

  /** A product of reals is zero only when a factor is. */
  lemma ZeroProduct(a: real, b: real)
    requires a * b == 0.0
    ensures a == 0.0 || b == 0.0
  {
    if a != 0.0 {
      assert b == (a * b) / a;
    }
  }

  /** Every square has a root, and `Sqrt` undoes squaring on non-negatives. */
  lemma SqrtOfSquare(v: real)
    requires v >= 0.0
    ensures HasSqrt(v * v) && Sqrt(v * v) == v
  {
    assert IsSqrt(v * v, v);
    SqrtUnique(v * v, v);
  }

  /** `math.radians`: degrees to radians. */
  function Radians(x: real): (r: real)
    ensures r * 180.0 == x * PI
  {
    x * (PI / 180.0)
  }

  /** `math.degrees`: radians to degrees. */
  function Degrees(x: real): (d: real)
    ensures d * PI == x * 180.0
  {
    x * (180.0 / PI)
  }

  /** `radians` and `degrees` are mutual inverses. */
  lemma RadiansDegrees(x: real)
    ensures Radians(Degrees(x)) == x
    ensures Degrees(Radians(x)) == x
  {
  }
}
