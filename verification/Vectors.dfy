/** Integer vectors: dot products, squared norms, and what bounds a cosine. */
module Vectors {

  function Abs(x: int): nat {
    if x < 0 then -x else x
  }

  function Dot(a: seq<int>, b: seq<int>): int
    requires |a| == |b|
  {
    if a == [] then 0 else a[0] * b[0] + Dot(a[1..], b[1..])
  }

  /** The squared norm. */
  function Norm2(a: seq<int>): nat {
    if a == [] then 0 else a[0] * a[0] + Norm2(a[1..])
  }

  /** The sum of the absolute values. */
  function Norm1(a: seq<int>): nat {
    if a == [] then 0 else Abs(a[0]) + Norm1(a[1..])
  }

  /** (d + xy)^2 <= (p + x^2)(q + y^2), from d^2 <= pq. */
  lemma CauchySchwarzStep(d: int, p: nat, q: nat, x: int, y: int)
    requires d * d <= p * q
    ensures (d + x * y) * (d + x * y) <= (p + x * x) * (q + y * y)
  {
    var cross := p * (y * y) + q * (x * x);
    var twice := 2 * (d * (x * y));
    assert (d + x * y) * (d + x * y) == d * d + twice + (x * x) * (y * y);
    assert (p + x * x) * (q + y * y) == p * q + cross + (x * x) * (y * y);
    GeometricMean(p * (y * y), q * (x * x), d * (x * y));
    ProductOfSquares(d, p, q, x, y);
  }

  /** If e^2 <= uv for u, v >= 0 then 2e <= u + v. */
  lemma GeometricMean(u: nat, v: nat, e: int)
    ensures e * e <= u * v ==> 2 * e <= u + v
  {
    assert (u + v) * (u + v) == (u - v) * (u - v) + 4 * (u * v);
    assert (u - v) * (u - v) >= 0;
    assert (2 * e) * (2 * e) == 4 * (e * e);
    if e * e <= u * v && 2 * e > u + v {
      SquareGrows(u + v, 2 * e);
    }
  }

  lemma SquareGrows(a: nat, b: nat)
    requires a < b
    ensures a * a < b * b
  {
    assert a * a <= a * b;
    assert a * b < b * b;
  }

  lemma ProductOfSquares(d: int, p: nat, q: nat, x: int, y: int)
    requires d * d <= p * q
    ensures (d * (x * y)) * (d * (x * y)) <= (p * (y * y)) * (q * (x * x))
  {
    var z := (x * y) * (x * y);
    assert (d * (x * y)) * (d * (x * y)) == (d * d) * z;
    assert z == (x * x) * (y * y);
    assert (p * (y * y)) * (q * (x * x)) == (p * q) * z;
    assert (d * d) * z <= (p * q) * z;
  }

  lemma {:induction false} CauchySchwarz(a: seq<int>, b: seq<int>)
    requires |a| == |b|
    ensures Dot(a, b) * Dot(a, b) <= Norm2(a) * Norm2(b)
  {
    if a != [] {
      CauchySchwarz(a[1..], b[1..]);
      CauchySchwarzStep(Dot(a[1..], b[1..]), Norm2(a[1..]), Norm2(b[1..]), a[0], b[0]);
    }
  }

  // Products of reals are named: each lemma takes them as arguments and concludes about plain variables.

  lemma PositiveProduct(a: real, b: real, ab: real)
    requires 0.0 < a && 0.0 < b && ab == a * b
    ensures 0.0 < ab
  {
  }

  lemma SquareOfProduct(b: real, m: real, bm: real, bb: real, mm: real, square: real)
    requires bm == b * m && bb == b * b && mm == m * m && square == bm * bm
    ensures square == bb * mm
  {
    calc {
      square;
      bm * (b * m);
      b * (m * bm);
      b * (m * (b * m));
      (b * b) * (m * m);
      bb * mm;
    }
  }

  lemma SquareIsMonotone(a: real, b: real, aa: real, bb: real)
    requires 0.0 <= a < b && aa == a * a && bb == b * b
    ensures aa < bb
  {
    var product := (b - a) * (b + a);
    PositiveProduct(b - a, b + a, product);
    assert product == b * b - a * a;
  }

  lemma RealProduct(x: int, y: int)
    ensures (x * y) as real == (x as real) * (y as real)
  {
  }

  lemma QuotientInUnitInterval(quotient: real, n: real, d: real, nn: real, dd: real)
    requires 0.0 < n && 0.0 <= d && quotient * n == d && nn == n * n && dd == d * d && dd <= nn
    ensures 0.0 <= quotient <= 1.0
  {
    assert quotient < 0.0 ==> quotient * n < 0.0;
    assert 1.0 < quotient ==> n < quotient * n;
    if n < d {
      SquareIsMonotone(n, d, nn, dd);
    }
  }

  /** Whatever the norms are exactly, a cosine of two vectors whose dot product is not negative is in [0, 1]. */
  lemma CosineInUnitInterval(a: seq<int>, b: seq<int>, na: real, nb: real, n: real, cosine: real)
    requires |a| == |b| && 0 <= Dot(a, b)
    requires 0.0 < na && 0.0 < nb && na * na == Norm2(a) as real && nb * nb == Norm2(b) as real
    requires n == na * nb && cosine * n == Dot(a, b) as real
    ensures 0.0 < n && 0.0 <= cosine <= 1.0
  {
    CauchySchwarz(a, b);
    PositiveProduct(na, nb, n);
    CosineBound(Dot(a, b), Norm2(a), Norm2(b), na, nb, n, cosine);
  }

  lemma CosineBound(dot: nat, p: nat, q: nat, na: real, nb: real, n: real, cosine: real)
    requires dot * dot <= p * q
    requires na * na == p as real && nb * nb == q as real && n == na * nb && 0.0 < n && cosine * n == dot as real
    ensures 0.0 <= cosine <= 1.0
  {
    var nn, d, dd := n * n, dot as real, (dot * dot) as real;
    RealProduct(dot, dot);
    RealProduct(p, q);
    SquareOfProduct(na, nb, n, p as real, q as real, nn);
    assert dd == d * d;
    QuotientInUnitInterval(cosine, n, d, nn, dd);
  }

  lemma {:induction false} Norm2OfNonzero(a: seq<int>, i: nat)
    requires i < |a| && a[i] != 0
    ensures 0 < Norm2(a)
  {
    if i != 0 {
      Norm2OfNonzero(a[1..], i - 1);
    } else {
      assert a[0] * a[0] > 0;
    }
  }

  /** A vector with a positive sum of absolute values has a coordinate that is not zero. */
  lemma {:induction false} NonzeroCoordinate(a: seq<int>) returns (i: nat)
    requires 0 < Norm1(a)
    ensures i < |a| && a[i] != 0
  {
    if a[0] != 0 {
      i := 0;
    } else {
      var j := NonzeroCoordinate(a[1..]);
      i := j + 1;
    }
  }

  /** Coordinates whose scaled squares all stay below `bound` sum to less than as many bounds. */
  lemma {:induction false} SmallSquares(a: seq<int>, scale: nat, bound: nat)
    requires forall i :: 0 <= i < |a| ==> scale * (a[i] * a[i]) < bound
    ensures scale * Norm2(a) <= |a| * bound
    ensures a != [] ==> scale * Norm2(a) < |a| * bound
  {
    if a != [] {
      SmallSquares(a[1..], scale, bound);
      assert scale * Norm2(a) == scale * (a[0] * a[0]) + scale * Norm2(a[1..]);
      assert |a| * bound == bound + |a[1..]| * bound;
    }
  }

  /** Pigeonhole on squares: some coordinate carries its share of the squared norm. */
  lemma LargeCoordinate(a: seq<int>) returns (i: nat)
    requires a != []
    ensures i < |a| && Norm2(a) <= |a| * (a[i] * a[i])
  {
    if forall k :: 0 <= k < |a| ==> |a| * (a[k] * a[k]) < Norm2(a) {
      SmallSquares(a, |a|, Norm2(a));
      assert false;
    }
    i :| i < |a| && Norm2(a) <= |a| * (a[i] * a[i]);
  }
}
