/**
 * The local embedder (internal/lead/embedding/embedder.go).
 *
 * Every token moves one coordinate by one. The hash of the token, FNV-1a in the program and any function
 * here, picks the coordinate by its residue modulo 1536 and the direction by its parity. Because 1536 is
 * even the coordinate fixes the direction, so nothing ever cancels; the consequences are proved here.
 */
module Embedder {
  import opened Sequences
  import opened Text
  import opened Vectors

  const DIMENSIONS: nat := 1536
  const MICROS := 1_000_000

  type Hash = string -> nat

  function Index(sum: nat): nat {
    sum % DIMENSIONS
  }

  function Weight(sum: nat): int {
    if sum % 2 == 0 then -1 else 1
  }

  /** The vector before normalization. */
  function Raw(fnv: Hash, tokens: seq<string>): (v: seq<int>)
    ensures |v| == DIMENSIONS
  {
    if tokens == [] then seq(DIMENSIONS, _ => 0)
    else
      var v := Raw(fnv, tokens[..|tokens| - 1]);
      var sum := fnv(tokens[|tokens| - 1]);
      v[Index(sum) := v[Index(sum)] + Weight(sum)]
  }

  function Tokens(content: string): (tokens: seq<string>)
    ensures tokens != []
  {
    if Fields(content) == [] then ["empty"] else Fields(content)
  }

  /** A text without words is embedded as one word. */
  lemma TokensOfBlank(content: string)
    ensures IsBlank(content) <==> Fields(content) == []
    ensures IsBlank(content) ==> Tokens(content) == ["empty"]
  {
    if IsBlank(content) {
      FieldsOfBlank(content);
    } else {
      var c :| c in content && !IsSpace(c);
      FieldsOfVisible("", content);
    }
  }

  // ---------------------------------------------------------------------------------------------
  // What the raw vector is
  // ---------------------------------------------------------------------------------------------

  /** How many tokens have the residue `i`. */
  function Hits(fnv: Hash, tokens: seq<string>, i: nat): nat {
    if tokens == [] then 0
    else Hits(fnv, tokens[..|tokens| - 1], i) + if fnv(tokens[|tokens| - 1]) % 1536 == i then 1 else 0
  }

  /** 1536 is even: a hash and the coordinate it picks have the same parity. */
  lemma ParityOfIndex(sum: nat)
    ensures Index(sum) % 2 == sum % 2
    ensures Weight(Index(sum)) == Weight(sum)
  {
    assert sum == 2 * (768 * (sum / DIMENSIONS)) + Index(sum);
  }

  /** Coordinate `i` counts its tokens, downwards if `i` is even and upwards if it is odd. */
  lemma {:induction false} RawIsSignedCount(fnv: Hash, tokens: seq<string>, i: nat)
    requires i < DIMENSIONS
    ensures Raw(fnv, tokens)[i] == if i % 2 == 0 then -(Hits(fnv, tokens, i) as int) else Hits(fnv, tokens, i)
  {
    if tokens != [] {
      RawIsSignedCount(fnv, tokens[..|tokens| - 1], i);
      ParityOfIndex(fnv(tokens[|tokens| - 1]));
    }
  }

  /** The token moves coordinate `i`. */
  predicate Moves(fnv: Hash, token: string, i: nat) {
    fnv(token) % 1536 == i
  }

  lemma {:induction false} HitsAreMoves(fnv: Hash, tokens: seq<string>, i: nat)
    ensures 0 < Hits(fnv, tokens, i) <==> exists t :: t in tokens && Moves(fnv, t, i)
  {
    if tokens != [] {
      var rest, last := tokens[..|tokens| - 1], tokens[|tokens| - 1];
      HitsAreMoves(fnv, rest, i);
      assert forall t :: t in tokens <==> t in rest || t == last;
      assert Moves(fnv, last, i) <==> fnv(last) % 1536 == i;
    }
  }

  /** A coordinate is not zero if and only if some token has it as its residue; it counts those tokens. */
  lemma CoordinateIff(fnv: Hash, tokens: seq<string>, i: nat)
    requires i < 1536
    ensures Raw(fnv, tokens)[i] != 0 <==> exists t :: t in tokens && fnv(t) % 1536 == i
    ensures Abs(Raw(fnv, tokens)[i]) == Hits(fnv, tokens, i)
  {
    RawIsSignedCount(fnv, tokens, i);
    HitsAreMoves(fnv, tokens, i);
    if exists t :: t in tokens && fnv(t) % 1536 == i {
      var t :| t in tokens && fnv(t) % 1536 == i;
      assert Moves(fnv, t, i);
    }
    if exists t :: t in tokens && Moves(fnv, t, i) {
      var t :| t in tokens && Moves(fnv, t, i);
      assert fnv(t) % 1536 == i;
    }
  }

  /** Even coordinates are never positive, odd ones never negative. */
  predicate Striped(v: seq<int>) {
    forall i :: 0 <= i < |v| ==> if i % 2 == 0 then v[i] <= 0 else 0 <= v[i]
  }

  lemma RawIsStriped(fnv: Hash, tokens: seq<string>)
    ensures Striped(Raw(fnv, tokens))
  {
    forall i | 0 <= i < DIMENSIONS
      ensures if i % 2 == 0 then Raw(fnv, tokens)[i] <= 0 else 0 <= Raw(fnv, tokens)[i]
    {
      RawIsSignedCount(fnv, tokens, i);
    }
  }

  lemma {:induction false} Norm1Updated(v: seq<int>, i: nat, x: int)
    requires i < |v|
    ensures Norm1(v[i := x]) == Norm1(v) - Abs(v[i]) + Abs(x)
  {
    if i == 0 {
      assert v[i := x][1..] == v[1..];
    } else {
      assert v[i := x][1..] == v[1..][i - 1 := x];
      Norm1Updated(v[1..], i - 1, x);
    }
  }

  lemma {:induction false} Norm1OfZeros(v: seq<int>)
    requires forall i :: 0 <= i < |v| ==> v[i] == 0
    ensures Norm1(v) == 0
  {
    if v != [] {
      Norm1OfZeros(v[1..]);
    }
  }

  /** Nothing cancels: the absolute values sum to the number of tokens. */
  lemma {:induction false} NothingCancels(fnv: Hash, tokens: seq<string>)
    ensures Norm1(Raw(fnv, tokens)) == |tokens|
  {
    if tokens == [] {
      Norm1OfZeros(Raw(fnv, tokens));
    } else {
      var before := tokens[..|tokens| - 1];
      var sum := fnv(tokens[|tokens| - 1]);
      NothingCancels(fnv, before);
      RawIsStriped(fnv, before);
      ParityOfIndex(sum);
      AwayFromZero(Raw(fnv, before), Index(sum), Weight(sum));
    }
  }

  lemma AwayFromZero(v: seq<int>, i: nat, w: int)
    requires i < |v| && ((w == 1 && 0 <= v[i]) || (w == -1 && v[i] <= 0))
    ensures Norm1(v[i := v[i] + w]) == Norm1(v) + 1
  {
    Norm1Updated(v, i, v[i] + w);
  }

  /** So the zero-magnitude branch of the normalization never fires. */
  lemma RawIsNeverZero(fnv: Hash, content: string)
    ensures 0 < Norm2(Raw(fnv, Tokens(content)))
  {
    NothingCancels(fnv, Tokens(content));
    var i := NonzeroCoordinate(Raw(fnv, Tokens(content)));
    Norm2OfNonzero(Raw(fnv, Tokens(content)), i);
  }

  lemma {:induction false} HitsOfConcatenation(fnv: Hash, a: seq<string>, b: seq<string>, i: nat)
    ensures Hits(fnv, a + b, i) == Hits(fnv, a, i) + Hits(fnv, b, i)
  {
    if b == [] {
      assert a + b == a;
    } else {
      assert (a + b)[..|a + b| - 1] == a + b[..|b| - 1];
      HitsOfConcatenation(fnv, a, b[..|b| - 1], i);
    }
  }

  /** The raw vector of two texts is the sum of theirs. */
  lemma RawIsAdditive(fnv: Hash, a: seq<string>, b: seq<string>, i: nat)
    requires i < DIMENSIONS
    ensures Raw(fnv, a + b)[i] == Raw(fnv, a)[i] + Raw(fnv, b)[i]
  {
    RawIsSignedCount(fnv, a, i);
    RawIsSignedCount(fnv, b, i);
    RawIsSignedCount(fnv, a + b, i);
    HitsOfConcatenation(fnv, a, b, i);
  }

  lemma {:induction false} HitsIgnoreOrder(fnv: Hash, a: seq<string>, b: seq<string>, i: nat)
    requires multiset(a) == multiset(b)
    ensures Hits(fnv, a, i) == Hits(fnv, b, i)
    decreases |a|
  {
    if a == [] {
      assert |multiset(b)| == |b| == 0;
    } else {
      var last := a[|a| - 1];
      var before, after := LastIsSomewhere(a, b);
      HitsIgnoreOrder(fnv, a[..|a| - 1], before + after, i);
      HitsOfConcatenation(fnv, before + [last], after, i);
      HitsOfConcatenation(fnv, before, [last], i);
      HitsOfConcatenation(fnv, before, after, i);
    }
  }

  /** The raw vector depends on which tokens there are, not on their order. */
  lemma RawIgnoresOrder(fnv: Hash, a: seq<string>, b: seq<string>)
    requires multiset(a) == multiset(b)
    ensures Raw(fnv, a) == Raw(fnv, b)
  {
    forall i | 0 <= i < DIMENSIONS
      ensures Raw(fnv, a)[i] == Raw(fnv, b)[i]
    {
      RawIsSignedCount(fnv, a, i);
      RawIsSignedCount(fnv, b, i);
      HitsIgnoreOrder(fnv, a, b, i);
    }
  }

  // ---------------------------------------------------------------------------------------------
  // Normalization and printing
  // ---------------------------------------------------------------------------------------------

  /** `root` is the square root the program takes of the squared norm; a root of zero is replaced by one. */
  predicate IsRoot(root: real, squared: nat) {
    0.0 <= root && root * root == squared as real
  }

  function Divisor(root: real): real {
    if root == 0.0 then 1.0 else root
  }

  /** A value printed with six decimals, in millionths: the nearest one, ties either way. */
  predicate IsPrinted(x: real, micros: int) {
    -0.5 <= micros as real - x * MICROS as real <= 0.5
  }

  /** What the program prints for a raw vector. */
  predicate IsPrintedVector(raw: seq<int>, root: real, printed: seq<int>) {
    |printed| == |raw| && forall i :: 0 <= i < |raw| ==> IsPrinted(raw[i] as real / Divisor(root), printed[i])
  }

  method Accumulate(fnv: Hash, content: string) returns (vector: array<int>)
    ensures fresh(vector) && vector[..] == Raw(fnv, Tokens(content))
  {
    vector := new int[DIMENSIONS](_ => 0);
    var tokens := Fields(content);
    if |tokens| == 0 {
      tokens := ["empty"];
    }
    assert vector[..] == Raw(fnv, tokens[..0]);
    for k := 0 to |tokens|
      invariant vector[..] == Raw(fnv, tokens[..k])
    {
      var sum := fnv(tokens[k]);
      var index := sum % DIMENSIONS;
      var weight := 1;
      if sum % 2 == 0 {
        weight := -1;
      }
      vector[index] := vector[index] + weight;
      assert tokens[..k + 1][..k] == tokens[..k];
    }
    assert tokens[..|tokens|] == tokens;
  }

  lemma {:induction false} Norm2Extended(v: seq<int>, x: int)
    ensures Norm2(v + [x]) == Norm2(v) + x * x
  {
    if v == [] {
      assert v + [x] == [x];
    } else {
      assert (v + [x])[1..] == v[1..] + [x];
      Norm2Extended(v[1..], x);
    }
  }

  method Normalize(vector: array<int>, sqrt: int -> real) returns (normalized: array<real>)
    ensures fresh(normalized) && normalized.Length == vector.Length
    ensures forall i :: 0 <= i < vector.Length ==> normalized[i] == vector[i] as real / Divisor(sqrt(Norm2(vector[..])))
  {
    var squared := 0;
    for k := 0 to vector.Length
      invariant squared == Norm2(vector[..k])
    {
      Norm2Extended(vector[..k], vector[k]);
      assert vector[..k + 1] == vector[..k] + [vector[k]];
      squared := squared + vector[k] * vector[k];
    }
    assert vector[..vector.Length] == vector[..];
    var magnitude := sqrt(squared);
    if magnitude == 0.0 {
      magnitude := 1.0;
    }
    normalized := new real[vector.Length];
    for k := 0 to vector.Length
      invariant forall i :: 0 <= i < k ==> normalized[i] == vector[i] as real / magnitude
    {
      normalized[k] := vector[k] as real / magnitude;
    }
  }

  // ---------------------------------------------------------------------------------------------
  // What survives printing
  // ---------------------------------------------------------------------------------------------

  lemma QuotientAtMostOne(x: real, q: real, m: real, xx: real, mm: real)
    requires 0.0 < m && q * m == x && xx == x * x && mm == m * m && xx <= mm
    ensures -1.0 <= q <= 1.0
  {
    assert 1.0 < q ==> m < q * m;
    assert q < -1.0 ==> m < -q * m;
    if m < x { SquareIsMonotone(m, x, mm, xx); }
    if m < -x { SquareIsMonotone(m, -x, mm, xx); }
  }

  /** If x = qm carries a share 1/1536 of m^2, then q is beyond any bound b with b^2 < 1/1536. */
  lemma QuotientHasItsShare(x: real, q: real, m: real, b: real, xx: real, mm: real, bb: real)
    requires 0.0 < m && q * m == x && xx == x * x && mm == m * m && mm <= 1536.0 * xx
    requires 0.0 < b && bb == b * b && 1536.0 * bb < 1.0
    ensures q < -b || b < q
  {
    var qq := q * q;
    PositiveProduct(m, m, mm);
    SquareOfProduct(q, m, x, qq, mm, xx);
    CancelFactor(qq, mm, xx);
    if -b <= q <= b {
      SmallSquare(q, b, qq, bb);
    }
  }

  lemma CancelFactor(qq: real, mm: real, xx: real)
    requires 0.0 < mm && xx == qq * mm && mm <= 1536.0 * xx
    ensures 1.0 <= 1536.0 * qq
  {
    var excess := 1.0 - 1536.0 * qq;
    var product := excess * mm;
    assert product == mm - 1536.0 * xx;
    if 0.0 < excess {
      PositiveProduct(excess, mm, product);
    }
  }

  lemma SmallSquare(q: real, b: real, qq: real, bb: real)
    requires -b <= q <= b && qq == q * q && bb == b * b
    ensures qq <= bb
  {
    if -b < q < b {
      var product := (b - q) * (b + q);
      PositiveProduct(b - q, b + q, product);
      assert product == b * b - q * q;
    }
  }

  /** A coordinate no larger than the root keeps its sign in print, and is printed as at most one. */
  lemma PrintedCoordinate(x: int, m: real, squared: nat, printed: int)
    requires 0.0 < m && IsPrinted(x as real / m, printed)
    requires m * m == squared as real && x * x <= squared
    ensures 0 <= x ==> 0 <= printed
    ensures x <= 0 ==> printed <= 0
    ensures -MICROS <= printed <= MICROS
  {
    var q := x as real / m;
    assert q * m == x as real;
    assert 0 <= x ==> 0.0 <= q;
    assert x <= 0 ==> q <= 0.0;
    RealProduct(x, x);
    QuotientAtMostOne(x as real, q, m, (x * x) as real, squared as real);
  }

  /** A coordinate with its share of the squared norm is printed as more than 0.025. */
  lemma LargeCoordinateIsPrinted(x: int, m: real, squared: nat, printed: int)
    requires 0.0 < m && m * m == squared as real && squared <= 1536 * (x * x)
    requires IsPrinted(x as real / m, printed)
    ensures 25_000 < Abs(printed)
  {
    var q := x as real / m;
    assert q * m == x as real;
    var xx := x * x;
    RealProduct(x, x);
    assert squared as real <= 1536.0 * (xx as real);
    QuotientHasItsShare(x as real, q, m, 0.0255, xx as real, squared as real, 0.00065025);
  }

  lemma {:induction false} CoordinateInNorm(v: seq<int>, i: nat)
    requires i < |v|
    ensures v[i] * v[i] <= Norm2(v)
  {
    if i != 0 {
      CoordinateInNorm(v[1..], i - 1);
      assert 0 <= v[0] * v[0];
    }
  }

  lemma RootIsPositive(root: real, squared: nat)
    requires IsRoot(root, squared) && 0 < squared
    ensures 0.0 < root
  {
  }

  /** The bounds that printing keeps, for any vector that is not zero. */
  lemma PrintedBounds(raw: seq<int>, root: real, printed: seq<int>)
    requires Striped(raw) && 0 < Norm2(raw) && IsRoot(root, Norm2(raw)) && IsPrintedVector(raw, root, printed)
    ensures Striped(printed)
    ensures forall i :: 0 <= i < |printed| ==> -MICROS <= printed[i] <= MICROS
  {
    RootIsPositive(root, Norm2(raw));
    forall i | 0 <= i < |printed|
      ensures 0 <= raw[i] ==> 0 <= printed[i]
      ensures raw[i] <= 0 ==> printed[i] <= 0
      ensures -MICROS <= printed[i] <= MICROS
    {
      CoordinateInNorm(raw, i);
      PrintedCoordinate(raw[i], root, Norm2(raw), printed[i]);
    }
  }

  lemma PrintedIsNonzero(raw: seq<int>, root: real, printed: seq<int>)
    requires |raw| == 1536 && 0 < Norm2(raw) && IsRoot(root, Norm2(raw)) && IsPrintedVector(raw, root, printed)
    ensures exists i :: 0 <= i < |printed| && 25_000 < Abs(printed[i])
  {
    RootIsPositive(root, Norm2(raw));
    var i := LargeCoordinate(raw);
    LargeCoordinateIsPrinted(raw[i], root, Norm2(raw), printed[i]);
  }

  /**
   * The printed vector of every text has 1536 entries, keeps the signs by parity, has no entry beyond one,
   * and is never zero: some entry is beyond 0.025.
   */
  lemma PrintedVectorIsUsable(fnv: Hash, content: string, root: real, printed: seq<int>)
    requires var raw := Raw(fnv, Tokens(content)); IsRoot(root, Norm2(raw)) && IsPrintedVector(raw, root, printed)
    ensures |printed| == DIMENSIONS
    ensures Striped(printed)
    ensures forall i :: 0 <= i < |printed| ==> -MICROS <= printed[i] <= MICROS
    ensures exists i :: 0 <= i < |printed| && 25_000 < Abs(printed[i])
  {
    var raw := Raw(fnv, Tokens(content));
    RawIsNeverZero(fnv, content);
    RawIsStriped(fnv, Tokens(content));
    PrintedBounds(raw, root, printed);
    PrintedIsNonzero(raw, root, printed);
  }

  lemma {:induction false} AgreeingSigns(a: seq<int>, b: seq<int>)
    requires |a| == |b| && forall i :: 0 <= i < |a| ==> 0 <= a[i] * b[i]
    ensures 0 <= Dot(a, b)
  {
    if a != [] {
      assert forall i :: 0 <= i < |a[1..]| ==> a[1..][i] == a[i + 1] && b[1..][i] == b[i + 1];
      AgreeingSigns(a[1..], b[1..]);
    }
  }

  lemma StripedProducts(a: seq<int>, b: seq<int>)
    requires |a| == |b| && Striped(a) && Striped(b)
    ensures forall i :: 0 <= i < |a| ==> 0 <= a[i] * b[i]
  {
    forall i | 0 <= i < |a|
      ensures 0 <= a[i] * b[i]
    {
      if i % 2 == 0 {
        assert a[i] * b[i] == (-a[i]) * (-b[i]);
      }
    }
  }

  lemma StripedVectorsAgree(a: seq<int>, b: seq<int>)
    requires |a| == |b| && Striped(a) && Striped(b)
    ensures 0 <= Dot(a, b)
  {
    StripedProducts(a, b);
    AgreeingSigns(a, b);
  }

  lemma {:induction false} ZeroProducts(a: seq<int>, b: seq<int>)
    requires |a| == |b| && forall i :: 0 <= i < |a| ==> 0 <= a[i] * b[i]
    ensures Dot(a, b) == 0 <==> forall i :: 0 <= i < |a| ==> a[i] * b[i] == 0
  {
    if a != [] {
      assert forall i :: 0 <= i < |a[1..]| ==> a[1..][i] == a[i + 1] && b[1..][i] == b[i + 1];
      assert forall i :: 0 < i < |a| ==> a[i] == a[1..][i - 1] && b[i] == b[1..][i - 1];
      ZeroProducts(a[1..], b[1..]);
      AgreeingSigns(a[1..], b[1..]);
    }
  }

  lemma ProductIsZero(x: int, y: int)
    ensures x * y == 0 <==> x == 0 || y == 0
  {
  }

  /** Two texts have nothing in common, and similarity 0, if and only if no two of their tokens agree modulo 1536. */
  lemma OrthogonalIff(fnv: Hash, a: seq<string>, b: seq<string>)
    ensures Dot(Raw(fnv, a), Raw(fnv, b)) == 0
      <==> forall t, u :: t in a && u in b ==> fnv(t) % 1536 != fnv(u) % 1536
  {
    var x, y := Raw(fnv, a), Raw(fnv, b);
    RawIsStriped(fnv, a);
    RawIsStriped(fnv, b);
    StripedProducts(x, y);
    ZeroProducts(x, y);
    if Dot(x, y) == 0 {
      forall t, u | t in a && u in b
        ensures fnv(t) % 1536 != fnv(u) % 1536
      {
        var i := fnv(t) % 1536;
        CoordinateIff(fnv, a, i);
        CoordinateIff(fnv, b, i);
        ProductIsZero(x[i], y[i]);
      }
    } else {
      var i :| 0 <= i < |x| && x[i] * y[i] != 0;
      ProductIsZero(x[i], y[i]);
      CoordinateIff(fnv, a, i);
      CoordinateIff(fnv, b, i);
    }
  }

  /** Any two raw vectors: the dot product is not negative, and Cauchy-Schwarz bounds it. */
  lemma RawSimilarity(fnv: Hash, a: string, b: string)
    ensures var u, v := Raw(fnv, Tokens(a)), Raw(fnv, Tokens(b));
      0 <= Dot(u, v) && Dot(u, v) * Dot(u, v) <= Norm2(u) * Norm2(v) && 0 < Norm2(u) && 0 < Norm2(v)
  {
    var u, v := Raw(fnv, Tokens(a)), Raw(fnv, Tokens(b));
    RawIsNeverZero(fnv, a);
    RawIsNeverZero(fnv, b);
    RawIsStriped(fnv, Tokens(a));
    RawIsStriped(fnv, Tokens(b));
    StripedVectorsAgree(u, v);
    CauchySchwarz(u, v);
  }

  /** The cosine similarity of the vectors printed for any two texts is defined, and lies in [0, 1]. */
  lemma PrintedSimilarityInUnitInterval(fnv: Hash, a: string, b: string, ra: real, rb: real, p: seq<int>, q: seq<int>,
      np: real, nq: real, n: real, cosine: real)
    requires IsRoot(ra, Norm2(Raw(fnv, Tokens(a)))) && IsPrintedVector(Raw(fnv, Tokens(a)), ra, p)
    requires IsRoot(rb, Norm2(Raw(fnv, Tokens(b)))) && IsPrintedVector(Raw(fnv, Tokens(b)), rb, q)
    requires IsRoot(np, Norm2(p)) && IsRoot(nq, Norm2(q)) && n == np * nq && cosine * n == Dot(p, q) as real
    ensures 0.0 < n && 0.0 <= cosine <= 1.0
  {
    PrintedVectorIsUsable(fnv, a, ra, p);
    PrintedVectorIsUsable(fnv, b, rb, q);
    var i :| 0 <= i < |p| && 25_000 < Abs(p[i]);
    var j :| 0 <= j < |q| && 25_000 < Abs(q[j]);
    Norm2OfNonzero(p, i);
    Norm2OfNonzero(q, j);
    RootIsPositive(np, Norm2(p));
    RootIsPositive(nq, Norm2(q));
    StripedVectorsAgree(p, q);
    CosineInUnitInterval(p, q, np, nq, n, cosine);
  }
}
