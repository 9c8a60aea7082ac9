/** Dot product, norm and cosine score over exact reals. */
module VectorMath {
  /** The sum of the products of the first `n` coordinates. */
  function DotUpTo(a: seq<real>, b: seq<real>, n: nat): real
    requires n <= |a| && n <= |b|
  {
    if n == 0 then 0.0 else DotUpTo(a, b, n - 1) + a[n - 1] * b[n - 1]
  }

  lemma DotStep(a: seq<real>, b: seq<real>, n: nat)
    requires 0 < n <= |a| && n <= |b|
    ensures DotUpTo(a, b, n) == DotUpTo(a, b, n - 1) + a[n - 1] * b[n - 1]
  {
  }

  function Dot(a: seq<real>, b: seq<real>): real
    requires |a| == |b|
  {
    DotUpTo(a, b, |a|)
  }

  lemma {:induction false} DotPrefix(a: seq<real>, b: seq<real>, x: seq<real>, y: seq<real>, n: nat)
    requires n <= |a| && n <= |b|
    ensures DotUpTo(a + x, b + y, n) == DotUpTo(a, b, n)
  {
    if n > 0 {
      DotPrefix(a, b, x, y, n - 1);
    }
  }

  /** Every coordinate adds its product, once. */
  lemma DotAddsUp(a: seq<real>, b: seq<real>, x: real, y: real)
    requires |a| == |b|
    ensures Dot([], []) == 0.0
    ensures Dot(a + [x], b + [y]) == Dot(a, b) + x * y
  {
    DotPrefix(a, b, [x], [y], |a|);
  }

  function SquareSum(a: seq<real>): real {
    Dot(a, a)
  }

  /** The square root as `math.Sqrt` is meant: the non-negative number with the given square. */
  ghost predicate IsSqrt(root: real -> real) {
    forall x | x >= 0.0 :: root(x) >= 0.0 && root(x) * root(x) == x
  }

  lemma {:induction false} SquaresNonNegative(a: seq<real>, n: nat)
    requires n <= |a|
    ensures DotUpTo(a, a, n) >= 0.0
  {
    if n > 0 {
      SquaresNonNegative(a, n - 1);
      assert a[n - 1] * a[n - 1] >= 0.0;
    }
  }

  lemma PositiveProduct(a: real, b: real)
    requires a > 0.0 && b > 0.0
    ensures a * b > 0.0
  {
  }

  lemma PositiveFactors(a: real, b: real, p: real)
    requires a > 0.0 && b > 0.0 && p == a * b
    ensures p > 0.0
  {
  }

  lemma EqualProducts(a: real, b: real, c: real, d: real)
    requires a == c && b == d
    ensures a * b == c * d
  {
  }

  lemma NegativeSquare(x: real, square: real)
    requires square == x * x && x < 0.0
    ensures square > 0.0
  {
    var y := -x;
    assert square == y * y;
    PositiveFactors(y, y, square);
  }

  lemma SquareSign(x: real, square: real)
    requires square == x * x
    ensures x != 0.0 ==> square > 0.0
    ensures x == 0.0 ==> square == 0.0
  {
    if x < 0.0 {
      NegativeSquare(x, square);
    }
    if x > 0.0 {
      PositiveFactors(x, x, square);
    }
  }

  predicate IsZero(a: seq<real>, n: nat)
    requires n <= |a|
  {
    forall i | 0 <= i < n :: a[i] == 0.0
  }

  lemma {:induction false} ZeroSquares(a: seq<real>, n: nat)
    requires n <= |a|
    ensures IsZero(a, n) ==> DotUpTo(a, a, n) == 0.0
    ensures !IsZero(a, n) ==> DotUpTo(a, a, n) > 0.0
  {
    if n > 0 {
      SquaresNonNegative(a, n - 1);
      ZeroSquares(a, n - 1);
      SquareSign(a[n - 1], a[n - 1] * a[n - 1]);
      assert IsZero(a, n) <==> IsZero(a, n - 1) && a[n - 1] == 0.0;
    }
  }

  lemma LargerSquare(x: real, y: real)
    requires x > y >= 0.0
    ensures x * x > y * y
  {
    PositiveProduct(x - y, x + y);
    assert (x - y) * (x + y) == x * x - y * y;
  }

  lemma SquareIsMonotone(x: real, y: real)
    requires y >= 0.0 && x * x <= y * y
    ensures -y <= x <= y
  {
    if x > y {
      LargerSquare(x, y);
    }
    if x < -y {
      LargerSquare(-x, y);
    }
  }

  /** One coordinate more: from d² <= a·b to (d + xy)² <= (a + x²)(b + y²). */
  lemma CauchyStep(d: real, a: real, b: real, x: real, y: real)
    requires a >= 0.0 && b >= 0.0 && d * d <= a * b
    ensures (d + x * y) * (d + x * y) <= (a + x * x) * (b + y * y)
  {
    var p, q := a * (y * y), b * (x * x);
    var z := d * (x * y);
    assert y * y >= 0.0 && x * x >= 0.0;
    assert p >= 0.0 && q >= 0.0;
    // (2z)² <= 4pq <= (p + q)², so 2z <= p + q
    ProductBound(d, a, b, x, y);
    assert (p - q) * (p - q) >= 0.0;
    assert (2.0 * z) * (2.0 * z) <= (p + q) * (p + q);
    SquareIsMonotone(2.0 * z, p + q);
    assert (d + x * y) * (d + x * y) == d * d + 2.0 * z + (x * x) * (y * y);
    assert (a + x * x) * (b + y * y) == a * b + p + q + (x * x) * (y * y);
  }

  lemma ProductBound(d: real, a: real, b: real, x: real, y: real)
    requires a >= 0.0 && b >= 0.0 && d * d <= a * b
    ensures (d * (x * y)) * (d * (x * y)) <= (a * (y * y)) * (b * (x * x))
  {
    var w := (x * y) * (x * y);
    assert w >= 0.0;
    assert (d * (x * y)) * (d * (x * y)) == (d * d) * w;
    assert (a * (y * y)) * (b * (x * x)) == (a * b) * w;
    assert (d * d) * w <= (a * b) * w;
  }

  lemma GrownCauchy(d: real, a: real, b: real, x: real, y: real, d': real, a': real, b': real)
    requires a >= 0.0 && b >= 0.0 && d * d <= a * b
    requires d' == d + x * y && a' == a + x * x && b' == b + y * y
    ensures d' * d' <= a' * b'
  {
    CauchyStep(d, a, b, x, y);
    EqualProducts(d', d', d + x * y, d + x * y);
    EqualProducts(a', b', a + x * x, b + y * y);
  }

  /** Cauchy-Schwarz for the loops `dot` and `norm` run. */
  lemma {:induction false} CauchySchwarz(a: seq<real>, b: seq<real>, n: nat)
    requires n <= |a| && n <= |b|
    ensures DotUpTo(a, b, n) * DotUpTo(a, b, n) <= DotUpTo(a, a, n) * DotUpTo(b, b, n)
  {
    if n > 0 {
      hide DotUpTo;
      DotStep(a, b, n);
      DotStep(a, a, n);
      DotStep(b, b, n);
      CauchySchwarz(a, b, n - 1);
      SquaresNonNegative(a, n - 1);
      SquaresNonNegative(b, n - 1);
      GrownCauchy(DotUpTo(a, b, n - 1), DotUpTo(a, a, n - 1), DotUpTo(b, b, n - 1), a[n - 1], b[n - 1],
                  DotUpTo(a, b, n), DotUpTo(a, a, n), DotUpTo(b, b, n));
    }
  }

  function Norm(root: real -> real, a: seq<real>): real {
    root(SquareSum(a))
  }

  /** A norm is zero exactly for a zero vector. */
  lemma NormIsRoot(root: real -> real, a: seq<real>)
    requires IsSqrt(root)
    ensures Norm(root, a) >= 0.0 && Norm(root, a) * Norm(root, a) == SquareSum(a)
    ensures Norm(root, a) == 0.0 <==> IsZero(a, |a|)
  {
    SquaresNonNegative(a, |a|);
    ZeroSquares(a, |a|);
    SquareSign(Norm(root, a), SquareSum(a));
  }

  /** The cosine score of two vectors of equal length with non-zero norms. */
  function Score(root: real -> real, q: seq<real>, v: seq<real>): real
    requires |q| == |v| && Norm(root, q) * Norm(root, v) != 0.0
  {
    Dot(q, v) / (Norm(root, q) * Norm(root, v))
  }

  lemma ProductOrder(t: real, u: real, m: real)
    requires m > 0.0 && t < u
    ensures t * m < u * m
  {
    assert (u - t) * m > 0.0;
  }

  lemma NonZeroRoots(m: real, n: real)
    requires m >= 0.0 && n >= 0.0 && m * n != 0.0
    ensures m * n > 0.0
  {
  }

  lemma QuotientBound(d: real, m: real)
    requires m > 0.0 && -m <= d <= m
    ensures -1.0 <= d / m <= 1.0
  {
    var t := d / m;
    assert t * m == d;
    if t > 1.0 {
      ProductOrder(1.0, t, m);
    }
    if t < -1.0 {
      ProductOrder(t, -1.0, m);
    }
  }

  lemma QuotientOfRoots(d: real, m: real, n: real, a: real, b: real)
    requires m >= 0.0 && n >= 0.0 && m * n != 0.0
    requires m * m == a && n * n == b && d * d <= a * b
    ensures -1.0 <= d / (m * n) <= 1.0
  {
    NonZeroRoots(m, n);
    BoundByRoots(d, m, n, a, b);
    SquareIsMonotone(d, m * n);
    QuotientBound(d, m * n);
  }

  /** Every score lies between -1 and 1. */
  lemma ScoreInRange(root: real -> real, q: seq<real>, v: seq<real>)
    requires IsSqrt(root) && |q| == |v| && Norm(root, q) * Norm(root, v) != 0.0
    ensures -1.0 <= Score(root, q, v) <= 1.0
  {
    hide IsSqrt, Norm;
    var m, n := Norm(root, q), Norm(root, v);
    NormIsRoot(root, q);
    NormIsRoot(root, v);
    CauchySchwarz(q, v, |q|);
    QuotientOfRoots(Dot(q, v), m, n, SquareSum(q), SquareSum(v));
  }

  lemma SquareOfProduct(m: real, n: real)
    ensures (m * n) * (m * n) == (m * m) * (n * n)
  {
  }

  lemma BoundByRoots(d: real, m: real, n: real, a: real, b: real)
    requires m * m == a && n * n == b && d * d <= a * b
    ensures d * d <= (m * n) * (m * n)
  {
    EqualProducts(a, b, m * m, n * n);
    SquareOfProduct(m, n);
  }

  function Scaled(c: real, a: seq<real>): (r: seq<real>)
    ensures |r| == |a|
  {
    seq(|a|, i requires 0 <= i < |a| => c * a[i])
  }

  lemma ScaledSquare(c: real, sum: real, x: real, y: real, scaled: real)
    requires y == c * x && scaled == c * c * sum
    ensures scaled + y * y == c * c * (sum + x * x)
  {
  }

  lemma ScaledProduct(c: real, sum: real, x: real, y: real, scaledX: real, scaled: real)
    requires scaledX == c * x && scaled == c * sum
    ensures scaled + scaledX * y == c * (sum + x * y)
  {
  }

  lemma {:induction false} DotScales(c: real, a: seq<real>, b: seq<real>, n: nat)
    requires n <= |a| && n <= |b|
    ensures DotUpTo(Scaled(c, a), b, n) == c * DotUpTo(a, b, n)
  {
    if n > 0 {
      DotScales(c, a, b, n - 1);
      ScaledProduct(c, DotUpTo(a, b, n - 1), a[n - 1], b[n - 1], Scaled(c, a)[n - 1], DotUpTo(Scaled(c, a), b, n - 1));
    }
  }

  lemma {:induction false} SquareSumScales(c: real, a: seq<real>, n: nat)
    requires n <= |a|
    ensures DotUpTo(Scaled(c, a), Scaled(c, a), n) == c * c * DotUpTo(a, a, n)
  {
    if n > 0 {
      hide DotUpTo;
      DotStep(a, a, n);
      DotStep(Scaled(c, a), Scaled(c, a), n);
      SquareSumScales(c, a, n - 1);
      ScaledSquare(c, DotUpTo(a, a, n - 1), a[n - 1], Scaled(c, a)[n - 1], DotUpTo(Scaled(c, a), Scaled(c, a), n - 1));
    }
  }

  lemma RootIsUnique(x: real, y: real)
    requires x >= 0.0 && y >= 0.0 && x * x == y * y
    ensures x == y
  {
    SquareIsMonotone(x, y);
    SquareIsMonotone(y, x);
  }

  lemma CancelFactor(c: real, d: real, k: real)
    requires c != 0.0 && k != 0.0
    ensures c * k != 0.0 && (c * d) / (c * k) == d / k
  {
    var t := d / k;
    assert t * k == d;
    assert c * d == t * (c * k);
  }

  lemma Regroup(c: real, m: real, n: real)
    ensures (c * m) * n == c * (m * n)
  {
  }

  lemma NormScales(root: real -> real, c: real, q: seq<real>)
    requires IsSqrt(root) && c > 0.0
    ensures Norm(root, Scaled(c, q)) == c * Norm(root, q)
  {
    var m := Norm(root, q);
    SquareSumScales(c, q, |q|);
    NormIsRoot(root, q);
    NormIsRoot(root, Scaled(c, q));
    SquareOfProduct(c, m);
    EqualProducts(c * c, SquareSum(q), c * c, m * m);
    RootIsUnique(Norm(root, Scaled(c, q)), c * m);
  }

  /** Scaling the query by a positive factor leaves every score as it is. */
  lemma ScoreIgnoresScale(root: real -> real, c: real, q: seq<real>, v: seq<real>)
    requires IsSqrt(root) && c > 0.0 && |q| == |v| && Norm(root, q) * Norm(root, v) != 0.0
    ensures Norm(root, Scaled(c, q)) * Norm(root, v) != 0.0
    ensures Score(root, Scaled(c, q), v) == Score(root, q, v)
  {
    hide IsSqrt, Norm;
    var m, n, d := Norm(root, q), Norm(root, v), Dot(q, v);
    DotScales(c, q, v, |q|);
    NormScales(root, c, q);
    CancelFactor(c, d, m * n);
    Regroup(c, m, n);
    EqualProducts(Norm(root, Scaled(c, q)), n, c * m, n);
  }

  method ComputeDot(a: seq<real>, b: seq<real>) returns (sum: real)
    requires |a| == |b|
    ensures sum == Dot(a, b)
  {
    sum := 0.0;
    for i := 0 to |a|
      invariant sum == DotUpTo(a, b, i)
    {
      sum := sum + a[i] * b[i];
    }
  }

  method ComputeNorm(root: real -> real, a: seq<real>) returns (n: real)
    ensures n == Norm(root, a)
  {
    var sum := 0.0;
    for i := 0 to |a|
      invariant sum == DotUpTo(a, a, i)
    {
      sum := sum + a[i] * a[i];
    }
    n := root(sum);
  }
}
