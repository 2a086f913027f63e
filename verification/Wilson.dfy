/**
 The Wilson score interval over exact reals. The square root is a parameter, assumed to be
 the non-negative root of every non-negative real.
 */
module Wilson {
  import opened Wrappers

  /** The two-sided 95% normal quantile; the results hold for every positive `z`. */
  const Z95 := 1.959963984540054

  ghost predicate IsSqrt(sqrt: real -> real) {
    forall x :: x >= 0.0 ==> sqrt(x) >= 0.0 && sqrt(x) * sqrt(x) == x
  }

  function Denominator(z: real, n: real): (d: real)
    requires n > 0.0
    ensures d >= 1.0
  {
    SquareNonNegative(z);
    NonNegativeQuotient(z * z, n);
    1.0 + z * z / n
  }

  lemma SquareNonNegative(z: real)
    ensures z * z >= 0.0
  {
    if z >= 0.0 {
      NonNegativeProduct(z, z);
    } else {
      NonNegativeProduct(-z, -z);
    }
  }

  function Center(z: real, p: real, n: real): real
    requires n > 0.0
  {
    (p + z * z / (2.0 * n)) / Denominator(z, n)
  }

  function Radicand(z: real, p: real, n: real): real
    requires n > 0.0
  {
    p * (1.0 - p) / n + z * z / (4.0 * n * n)
  }

  function Radius(z: real, sqrt: real -> real, p: real, n: real): real
    requires n > 0.0
  {
    z * sqrt(Radicand(z, p, n)) / Denominator(z, n)
  }

  function Interval(z: real, sqrt: real -> real, successes: nat, total: nat): Option<(real, real)> {
    if total == 0 then None
    else
      var n := total as real;
      var p := successes as real / n;
      var low := Center(z, p, n) - Radius(z, sqrt, p, n);
      var high := Center(z, p, n) + Radius(z, sqrt, p, n);
      Some((if low < 0.0 then 0.0 else low, if high > 1.0 then 1.0 else high))
  }

  /** How far `x` is from explaining the observed proportion `p`: zero at the interval's ends. */
  function Excess(z: real, x: real, p: real, n: real): real
    requires n > 0.0
  {
    (p - x) * (p - x) - z * z * x * (1.0 - x) / n
  }

  /** Completing the square: the excess is a parabola around the center. */
  lemma ExcessIsParabola(z: real, x: real, p: real, n: real, root: real)
    requires n > 0.0 && root * root == Radicand(z, p, n)
    ensures var c, r := Center(z, p, n), z * root / Denominator(z, n);
            Excess(z, x, p, n) == Denominator(z, n) * ((x - c) * (x - c) - r * r)
  {
    var w := z * z / n;
    var d, c, r := Denominator(z, n), Center(z, p, n), z * root / Denominator(z, n);
    DiscriminantOf(z, p, n, w, root);
    CenterTimes(z, p, n, w);
    ExcessWeighted(z, x, p, n, w);
    hide Denominator, Center, Excess, Radicand;
    QuotientTimes(z * root, d, r);
    SquareOfProduct(z, root, z * root);
    CompleteSquare(x, p, w, d, c, r, p + w / 2.0, z * root, Excess(z, x, p, n));
  }

  lemma CenterTimes(z: real, p: real, n: real, w: real)
    requires n > 0.0 && w == z * z / n
    ensures Denominator(z, n) == 1.0 + w
    ensures Denominator(z, n) * Center(z, p, n) == p + w / 2.0
  {
    WeightForms(z, n, w);
    var d := Denominator(z, n);
    QuotientTimes(p + z * z / (2.0 * n), d, Center(z, p, n));
  }

  lemma ExcessWeighted(z: real, x: real, p: real, n: real, w: real)
    requires n > 0.0 && w == z * z / n
    ensures Excess(z, x, p, n) == (p - x) * (p - x) - w * (x * (1.0 - x))
  {
    ScaleOver(z * z, x * (1.0 - x), n);
    assert z * z * x * (1.0 - x) == z * z * (x * (1.0 - x));
  }

  lemma CompleteSquare(x: real, p: real, w: real, d: real, c: real, r: real, u: real, v: real, excess: real)
    requires d == 1.0 + w && d > 0.0 && u == p + w / 2.0
    requires d * c == u && d * r == v && v * v == u * u - d * p * p
    requires excess == (p - x) * (p - x) - w * (x * (1.0 - x))
    ensures excess == d * ((x - c) * (x - c) - r * r)
  {
    var e := (x - c) * (x - c) - r * r;
    SquareScale(d, x, c, r, u, v);
    ParabolaAlgebra(x, p, w, d);
    CancelFactor(d, d * e, excess);
  }

  lemma NonNegativeProduct(a: real, b: real)
    requires a >= 0.0 && b >= 0.0
    ensures a * b >= 0.0
  {
  }

  lemma ScaleOver(a: real, b: real, n: real)
    requires n > 0.0
    ensures a * b / n == (a / n) * b
  {
  }

  lemma CancelFactor(d: real, a: real, b: real)
    requires d > 0.0 && d * a == d * b
    ensures a == b
  {
  }

  lemma SquareScale(d: real, x: real, c: real, r: real, u: real, v: real)
    requires d * c == u && d * r == v
    ensures d * (d * ((x - c) * (x - c) - r * r)) == (d * x - u) * (d * x - u) - v * v
  {
    assert (d * x - d * c) * (d * x - d * c) == d * (d * ((x - c) * (x - c)));
    assert (d * r) * (d * r) == d * (d * (r * r));
  }

  /** z^2 times the radicand is the discriminant of the quadratic. */
  lemma DiscriminantOf(z: real, p: real, n: real, w: real, root: real)
    requires n > 0.0 && w == z * z / n && root * root == Radicand(z, p, n)
    ensures z * z * (root * root) == (p + w / 2.0) * (p + w / 2.0) - (1.0 + w) * p * p
  {
    WeightForms(z, n, w);
    var q := p * (1.0 - p);
    ScaleOver(z * z, q, n);
    assert Radicand(z, p, n) == q / n + w / (4.0 * n);
    assert z * z * (q / n) == w * q;
    assert z * z * (w / (4.0 * n)) == w * w / 4.0;
  }

  lemma QuotientIs(a: real, b: real, q: real)
    requires b > 0.0 && q * b == a
    ensures a / b == q
  {
  }

  /** The three shapes in which z^2 / n appears. */
  lemma WeightForms(z: real, n: real, w: real)
    requires n > 0.0 && w == z * z / n
    ensures w >= 0.0 && w * n == z * z
    ensures z * z / (2.0 * n) == w / 2.0
    ensures z * z / (4.0 * n * n) == w / (4.0 * n)
    ensures z * z * (w / (4.0 * n)) == w * w / 4.0
  {
    var zz := z * z;
    SquareNonNegative(z);
    NonNegativeQuotient(zz, n);
    QuotientTimes(zz, n, w);
    HalfWeight(zz, n, w);
    QuarterWeight(zz, n, w);
  }

  lemma QuotientTimes(a: real, b: real, q: real)
    requires b > 0.0 && q == a / b
    ensures q * b == a
  {
  }

  lemma SquareOfProduct(z: real, root: real, v: real)
    requires v == z * root
    ensures v * v == z * z * (root * root)
  {
    assert (z * root) * (z * root) == z * z * (root * root);
  }

  lemma HalfWeight(zz: real, n: real, w: real)
    requires n > 0.0 && w * n == zz
    ensures zz / (2.0 * n) == w / 2.0
  {
    assert (w / 2.0) * (2.0 * n) == w * n;
    QuotientIs(zz, 2.0 * n, w / 2.0);
  }

  lemma QuarterWeight(zz: real, n: real, w: real)
    requires n > 0.0 && w * n == zz
    ensures zz / (4.0 * n * n) == w / (4.0 * n)
    ensures zz * (w / (4.0 * n)) == w * w / 4.0
  {
    var four := 4.0 * n * n;
    FourSquares(n, four);
    var q := w / (4.0 * n);
    QuotientTimes(w, 4.0 * n, q);
    assert q * four == (q * (4.0 * n)) * n;
    QuotientIs(zz, four, q);
    assert w * n * q == w * (q * n);
    assert 4.0 * (q * n) == q * (4.0 * n);
  }

  lemma ParabolaAlgebra(x: real, p: real, w: real, d: real)
    requires d == 1.0 + w
    ensures (d * x - (p + w / 2.0)) * (d * x - (p + w / 2.0)) - ((p + w / 2.0) * (p + w / 2.0) - d * p * p)
         == d * ((p - x) * (p - x) - w * (x * (1.0 - x)))
  {
  }

  lemma Squares(a: real, b: real)
    requires b >= 0.0
    ensures a * a <= b * b <==> -b <= a <= b
    ensures a * a == b * b ==> a == b || a == -b
  {
    assert b * b - a * a == (b - a) * (b + a);
    if a < -b {
      ProductSign(b - a, -(b + a));
    } else if a > b {
      ProductSign(a - b, b + a);
    }
  }

  lemma ProductSign(a: real, b: real)
    requires a > 0.0 && b > 0.0
    ensures a * b > 0.0
  {
  }

  lemma RadicandNonNegative(z: real, p: real, n: real)
    requires n > 0.0 && 0.0 <= p <= 1.0
    ensures Radicand(z, p, n) >= 0.0
  {
    NonNegativeProduct(p, 1.0 - p);
    NonNegativeQuotient(p * (1.0 - p), n);
    WeightForms(z, n, z * z / n);
    NonNegativeQuotient(z * z / n, 4.0 * n);
  }

  lemma FourSquares(n: real, four: real)
    requires n > 0.0 && four == 4.0 * n * n
    ensures four > 0.0
  {
    var quadruple := 4.0 * n;
    ProductSign(quadruple, n);
    assert four == quadruple * n;
  }

  lemma NonNegativeQuotient(a: real, b: real)
    requires a >= 0.0 && b > 0.0
    ensures a / b >= 0.0
  {
  }

  /** Where the interval's ends are before clamping. */
  ghost predicate Ends(z: real, sqrt: real -> real, p: real, n: real, low: real, high: real)
    requires n > 0.0
  {
    low == Center(z, p, n) - Radius(z, sqrt, p, n) && high == Center(z, p, n) + Radius(z, sqrt, p, n)
  }

  /** A proportion lies in the interval exactly when its excess is not positive. */
  lemma InsideIffExcess(z: real, sqrt: real -> real, p: real, n: real, low: real, high: real, x: real)
    requires z > 0.0 && IsSqrt(sqrt) && n > 0.0 && 0.0 <= p <= 1.0 && Ends(z, sqrt, p, n, low, high)
    ensures low <= high
    ensures low <= x <= high <==> Excess(z, x, p, n) <= 0.0
    ensures x == low || x == high <==> Excess(z, x, p, n) == 0.0
  {
    hide Excess, Center, Radicand, Denominator;
    RadicandNonNegative(z, p, n);
    var root := sqrt(Radicand(z, p, n));
    ExcessIsParabola(z, x, p, n, root);
    NonNegativeProduct(z, root);
    NonNegativeQuotient(z * root, Denominator(z, n));
    var r := z * root / Denominator(z, n);
    AroundCenter(x, Center(z, p, n), r, Denominator(z, n), Excess(z, x, p, n));
  }

  lemma AroundCenter(x: real, c: real, r: real, d: real, excess: real)
    requires r >= 0.0 && d > 0.0 && excess == d * ((x - c) * (x - c) - r * r)
    ensures c - r <= x <= c + r <==> excess <= 0.0
    ensures x == c - r || x == c + r <==> excess == 0.0
  {
    Squares(x - c, r);
    SignOfProduct(d, (x - c) * (x - c) - r * r);
    assert x - c == r || x - c == -r ==> (x - c) * (x - c) == r * r;
  }

  lemma SignOfProduct(d: real, e: real)
    requires d > 0.0
    ensures d * e <= 0.0 <==> e <= 0.0
    ensures d * e == 0.0 <==> e == 0.0
  {
  }

  /** The observed proportion is never worse explained than itself; 0 and 1 never better than not at all. */
  lemma ExcessAtLandmarks(z: real, p: real, n: real)
    requires n > 0.0 && 0.0 <= p <= 1.0
    ensures Excess(z, p, p, n) <= 0.0 && Excess(z, 0.0, p, n) >= 0.0 && Excess(z, 1.0, p, n) >= 0.0
  {
    NonNegativeProduct(p, 1.0 - p);
    NonNegativeProduct(1.0 - p, 1.0 - p);
    assert z * z * p * (1.0 - p) == z * z * (p * (1.0 - p));
  }

  lemma CenterInUnit(z: real, p: real, n: real)
    requires n > 0.0 && 0.0 <= p <= 1.0
    ensures 0.0 <= Center(z, p, n) <= 1.0
    ensures Center(z, 1.0 - p, n) == 1.0 - Center(z, p, n)
  {
    var w := z * z / n;
    WeightForms(z, n, w);
    FractionInUnit(p + w / 2.0, 1.0 + w);
    assert (1.0 - p + w / 2.0) == (1.0 + w) - (p + w / 2.0);
    FractionComplement(p + w / 2.0, 1.0 + w);
  }

  lemma FractionInUnit(a: real, b: real)
    requires 0.0 <= a <= b && b > 0.0
    ensures 0.0 <= a / b <= 1.0
  {
  }

  lemma FractionComplement(a: real, b: real)
    requires b > 0.0
    ensures (b - a) / b == 1.0 - a / b
  {
    assert b * (a / b) == a && b * ((b - a) / b) == b - a;
    assert b * (1.0 - a / b) == b - b * (a / b);
    CancelFactor(b, (b - a) / b, 1.0 - a / b);
  }

  /** The ends lie in the unit interval, so clamping never moves them. */
  lemma EndsInUnit(z: real, sqrt: real -> real, p: real, n: real, low: real, high: real)
    requires z > 0.0 && IsSqrt(sqrt) && n > 0.0 && 0.0 <= p <= 1.0 && Ends(z, sqrt, p, n, low, high)
    ensures 0.0 <= low <= p <= high <= 1.0
  {
    ExcessAtLandmarks(z, p, n);
    CenterInUnit(z, p, n);
    InsideIffExcess(z, sqrt, p, n, low, high, p);
    InsideIffExcess(z, sqrt, p, n, low, high, 0.0);
    InsideIffExcess(z, sqrt, p, n, low, high, 1.0);
  }

  lemma ProportionInUnit(successes: nat, total: nat)
    requires successes <= total && total > 0
    ensures 0.0 <= successes as real / total as real <= 1.0
  {
    FractionInUnit(successes as real, total as real);
  }

  /** Clamping changes nothing. */
  lemma IntervalEnds(z: real, sqrt: real -> real, successes: nat, total: nat)
    requires z > 0.0 && IsSqrt(sqrt) && successes <= total && total > 0
    ensures var p, n := successes as real / total as real, total as real;
            var ends := Interval(z, sqrt, successes, total).value;
            Ends(z, sqrt, p, n, ends.0, ends.1) && 0.0 <= ends.0 <= p <= ends.1 <= 1.0
  {
    var p, n := successes as real / total as real, total as real;
    ProportionInUnit(successes, total);
    EndsInUnit(z, sqrt, p, n, Center(z, p, n) - Radius(z, sqrt, p, n), Center(z, p, n) + Radius(z, sqrt, p, n));
  }

  /**
   The interval brackets the observed proportion, and consists of exactly the proportions `x`
   whose squared distance from it is at most z^2 x (1 - x) / n; its ends are the equalities.
   */
  lemma IntervalIsWilson(z: real, sqrt: real -> real, successes: nat, total: nat, x: real)
    requires z > 0.0 && IsSqrt(sqrt) && successes <= total && total > 0
    ensures var p, n := successes as real / total as real, total as real;
            var ends := Interval(z, sqrt, successes, total).value;
            && 0.0 <= ends.0 <= p <= ends.1 <= 1.0
            && (ends.0 <= x <= ends.1 <==> Excess(z, x, p, n) <= 0.0)
            && (x == ends.0 || x == ends.1 <==> Excess(z, x, p, n) == 0.0)
  {
    var ends := Interval(z, sqrt, successes, total).value;
    IntervalEnds(z, sqrt, successes, total);
    InsideIffExcess(z, sqrt, successes as real / total as real, total as real, ends.0, ends.1, x);
  }

  lemma RadiusMirrors(z: real, sqrt: real -> real, p: real, n: real)
    requires n > 0.0
    ensures Radius(z, sqrt, 1.0 - p, n) == Radius(z, sqrt, p, n)
  {
    hide Denominator;
    assert (1.0 - p) * (1.0 - (1.0 - p)) == p * (1.0 - p);
    assert Radicand(z, 1.0 - p, n) == Radicand(z, p, n);
  }

  /** Counting failures instead of successes mirrors the interval. */
  lemma IntervalMirrors(z: real, sqrt: real -> real, successes: nat, total: nat)
    requires z > 0.0 && IsSqrt(sqrt) && successes <= total && total > 0
    ensures Interval(z, sqrt, successes, total).value.0 == 1.0 - Interval(z, sqrt, total - successes, total).value.1
  {
    hide Interval, Center, Radius;
    var p, n := successes as real / total as real, total as real;
    FractionComplement(successes as real, n);
    assert (total - successes) as real / total as real == 1.0 - p;
    ProportionInUnit(successes, total);
    CenterInUnit(z, p, n);
    RadiusMirrors(z, sqrt, p, n);
    IntervalEnds(z, sqrt, successes, total);
    IntervalEnds(z, sqrt, total - successes, total);
  }
}
