/** Similarity and ranking over embedding vectors (`embeddings.py`, `embedding_index.py`), over the reals. */
module Similarity {
  import opened Text
  import Frontmatter
  import opened EmbeddingIndex

  // ---- dot products ----

  function Dot(a: Vector, b: Vector, k: nat): real
    requires k <= |a| && k <= |b|
  {
    if k == 0 then 0.0 else Dot(a, b, k - 1) + a[k - 1] * b[k - 1]
  }

  function DotOf(a: Vector, b: Vector): real
    requires |a| == |b|
  {
    Dot(a, b, |a|)
  }

  function Norm(a: Vector): real {
    Dot(a, a, |a|)
  }

  /** `t * a + b` */
  function Combined(a: Vector, b: Vector, t: real): (r: Vector)
    requires |a| == |b|
    ensures |r| == |a| && forall i | 0 <= i < |r| :: r[i] == t * a[i] + b[i]
  {
    seq(|a|, i requires 0 <= i < |a| => t * a[i] + b[i])
  }

  lemma {:induction false} SquaresNonNegative(a: Vector, k: nat)
    requires k <= |a|
    ensures Dot(a, a, k) >= 0.0
  {
    if k > 0 { SquaresNonNegative(a, k - 1); }
  }

  /** One more component of `t * a + b`. */
  lemma QuadraticStep(p: real, q: real, r: real, x: real, y: real, t: real)
    ensures t * t * (p + x * x) + 2.0 * t * (q + x * y) + (r + y * y)
         == t * t * p + 2.0 * t * q + r + (t * x + y) * (t * x + y)
  {
  }

  lemma {:induction false} CombinedNorm(a: Vector, b: Vector, t: real, k: nat)
    requires |a| == |b| && k <= |a|
    ensures Dot(Combined(a, b, t), Combined(a, b, t), k) == t * t * Dot(a, a, k) + 2.0 * t * Dot(a, b, k) + Dot(b, b, k)
  {
    if k > 0 {
      CombinedNorm(a, b, t, k - 1);
      QuadraticStep(Dot(a, a, k - 1), Dot(a, b, k - 1), Dot(b, b, k - 1), a[k - 1], b[k - 1], t);
    }
  }

  lemma {:induction false} ZeroNorm(a: Vector, b: Vector, k: nat)
    requires k <= |a| && k <= |b| && Dot(a, a, k) == 0.0
    ensures Dot(a, b, k) == 0.0
  {
    if k > 0 {
      SquaresNonNegative(a, k - 1);
      var x := a[k - 1];
      assert x * x >= 0.0;
      assert Dot(a, a, k - 1) == 0.0 && x * x == 0.0;
      if x != 0.0 { assert x * x != 0.0; }
      ZeroNorm(a, b, k - 1);
    }
  }

  /** A quadratic that is never negative at `-d / n`. */
  lemma Discriminant(n: real, d: real, m: real)
    requires n > 0.0
    requires var t := -d / n; t * t * n + 2.0 * t * d + m >= 0.0
    ensures d * d <= n * m
  {
    var t := -d / n;
    assert t * n == -d;
    assert t * t * n == t * (t * n) == -(t * d);
    assert t * d + m >= 0.0;
    assert n * (t * d + m) >= 0.0;
    assert n * (t * d) == (t * n) * d == -(d * d);
    assert n * (t * d + m) == n * (t * d) + n * m;
  }

  /** The Cauchy-Schwarz inequality. */
  lemma CauchySchwarz(a: Vector, b: Vector)
    requires |a| == |b|
    ensures DotOf(a, b) * DotOf(a, b) <= Norm(a) * Norm(b)
  {
    SquaresNonNegative(a, |a|);
    SquaresNonNegative(b, |b|);
    if Norm(a) == 0.0 {
      ZeroNorm(a, b, |a|);
    } else {
      var t := -DotOf(a, b) / Norm(a);
      CombinedNorm(a, b, t, |a|);
      SquaresNonNegative(Combined(a, b, t), |a|);
      Discriminant(Norm(a), DotOf(a, b), Norm(b));
    }
  }

  // ---- cosine ----

  /** `math.sqrt`, taken exactly. */
  ghost predicate IsRoot(root: real -> real) {
    forall x | x >= 0.0 :: root(x) >= 0.0 && root(x) * root(x) == x
  }

  /** `cosine`. */
  function Cosine(root: real -> real, a: Vector, b: Vector): real {
    if a == [] || b == [] || |a| != |b| then 0.0
    else if Norm(a) == 0.0 || Norm(b) == 0.0 then 0.0
    else
      var scale := root(Norm(a)) * root(Norm(b));
      if scale == 0.0 then 0.0 else DotOf(a, b) / scale
  }

  method ComputeCosine(root: real -> real, a: Vector, b: Vector) returns (c: real)
    requires IsRoot(root)
    ensures c == Cosine(root, a, b)
  {
    if a == [] || b == [] || |a| != |b| { return 0.0; }
    var dot, normA, normB := 0.0, 0.0, 0.0;
    for k := 0 to |a|
      invariant dot == Dot(a, b, k) && normA == Dot(a, a, k) && normB == Dot(b, b, k)
    {
      dot := dot + a[k] * b[k];
      normA := normA + a[k] * a[k];
      normB := normB + b[k] * b[k];
    }
    if normA == 0.0 || normB == 0.0 { return 0.0; }
    RootsPositive(root, a, b);
    return dot / (root(normA) * root(normB));
  }

  lemma SquareRootPositive(y: real)
    requires y >= 0.0 && y * y > 0.0
    ensures y > 0.0
  {
  }

  lemma PositiveRoot(root: real -> real, x: real)
    requires IsRoot(root) && x > 0.0
    ensures root(x) > 0.0
  {
    SquareRootPositive(root(x));
  }

  lemma RootsPositive(root: real -> real, a: Vector, b: Vector)
    requires IsRoot(root) && Norm(a) != 0.0 && Norm(b) != 0.0
    ensures root(Norm(a)) > 0.0 && root(Norm(b)) > 0.0 && root(Norm(a)) * root(Norm(b)) > 0.0
  {
    SquaresNonNegative(a, |a|);
    SquaresNonNegative(b, |b|);
    PositiveRoot(root, Norm(a));
    PositiveRoot(root, Norm(b));
  }

  lemma SquareGrows(d: real, s: real)
    requires d > s > 0.0
    ensures d * d > s * s && (-d) * (-d) == d * d
  {
    assert d * d > d * s && d * s > s * s;
  }

  lemma Bounded(d: real, s: real)
    requires s > 0.0 && d * d <= s * s
    ensures -s <= d <= s
  {
    if d > s { SquareGrows(d, s); }
    if -d > s { SquareGrows(-d, s); }
  }

  lemma Regroup(p: real, q: real)
    ensures (p * q) * (p * q) == (p * p) * (q * q)
  {
  }

  lemma QuotientBound(d: real, s: real)
    requires s > 0.0 && -s <= d <= s
    ensures -1.0 <= d / s <= 1.0
  {
  }

  /** A cosine lies between -1 and 1. */
  lemma CosineBounded(root: real -> real, a: Vector, b: Vector)
    requires IsRoot(root)
    ensures -1.0 <= Cosine(root, a, b) <= 1.0
  {
    if a != [] && |a| == |b| && Norm(a) != 0.0 && Norm(b) != 0.0 {
      CauchySchwarz(a, b);
      RootsPositive(root, a, b);
      SquaresNonNegative(a, |a|);
      SquaresNonNegative(b, |b|);
      var p, q := root(Norm(a)), root(Norm(b));
      assert p * p == Norm(a) && q * q == Norm(b);
      RatioBounded(DotOf(a, b), p, q, Norm(a), Norm(b));
      hide Dot, DotOf, Norm, IsRoot;
      assert Cosine(root, a, b) == DotOf(a, b) / (p * q);
    }
  }

  lemma RatioBounded(d: real, p: real, q: real, n: real, m: real)
    requires p * q > 0.0 && p * p == n && q * q == m && d * d <= n * m
    ensures -1.0 <= d / (p * q) <= 1.0
  {
    Regroup(p, q);
    Bounded(d, p * q);
    QuotientBound(d, p * q);
  }

  // ---- what the cosine means ----

  function Sum(s: seq<real>): real {
    if s == [] then 0.0 else s[0] + Sum(s[1..])
  }

  function Products(a: Vector, b: Vector): (r: seq<real>)
    requires |a| == |b|
    ensures |r| == |a| && forall i | 0 <= i < |r| :: r[i] == a[i] * b[i]
  {
    seq(|a|, i requires 0 <= i < |a| => a[i] * b[i])
  }

  lemma {:induction false} SumSnoc(s: seq<real>, x: real)
    ensures Sum(s + [x]) == Sum(s) + x
  {
    if s == [] {
      assert s + [x] == [x];
      assert [x][1..] == [] && Sum([]) == 0.0;
    } else {
      assert (s + [x])[1..] == s[1..] + [x];
      SumSnoc(s[1..], x);
    }
  }

  lemma {:induction false} DotIsSum(a: Vector, b: Vector, k: nat)
    requires |a| == |b| && k <= |a|
    ensures Dot(a, b, k) == Sum(Products(a, b)[..k])
  {
    if k > 0 {
      DotIsSum(a, b, k - 1);
      assert Products(a, b)[..k] == Products(a, b)[..k - 1] + [a[k - 1] * b[k - 1]];
      SumSnoc(Products(a, b)[..k - 1], a[k - 1] * b[k - 1]);
    }
  }

  lemma DotOfIsSum(a: Vector, b: Vector)
    requires |a| == |b|
    ensures DotOf(a, b) == Sum(Products(a, b))
  {
    DotIsSum(a, b, |a|);
    assert Products(a, b)[..|a|] == Products(a, b);
  }

  lemma ScaledBack(d: real, s: real)
    requires s != 0.0
    ensures (d / s) * s == d && (d / s > 0.0 <==> d * s > 0.0) && (d / s < 0.0 <==> d * s < 0.0)
  {
    var q := d / s;
    assert q * s == d;
    assert d * s == q * (s * s) && s * s > 0.0;
  }

  /** The cosine times the lengths of both vectors is the sum of their products; it is 0 for vectors of
      different lengths or without a length. So it has the sign of the sum of products. */
  lemma CosineIs(root: real -> real, a: Vector, b: Vector)
    requires IsRoot(root)
    ensures |a| != |b| ==> Cosine(root, a, b) == 0.0
    ensures |a| == |b| ==>
              var d, m, n := Sum(Products(a, b)), Sum(Products(a, a)), Sum(Products(b, b));
              && m >= 0.0 && n >= 0.0
              && (m == 0.0 || n == 0.0 ==> Cosine(root, a, b) == 0.0 && d == 0.0)
              && Cosine(root, a, b) * (root(m) * root(n)) == d
              && (Cosine(root, a, b) > 0.0 <==> d > 0.0) && (Cosine(root, a, b) < 0.0 <==> d < 0.0)
  {
    if |a| == |b| {
      DotOfIsSum(a, b);
      DotOfIsSum(a, a);
      DotOfIsSum(b, b);
      SquaresNonNegative(a, |a|);
      SquaresNonNegative(b, |b|);
      if Norm(a) == 0.0 {
        ZeroNorm(a, b, |a|);
      } else if Norm(b) == 0.0 {
        ZeroNorm(b, a, |b|);
        DotCommutes(a, b, |a|);
      } else {
        RootsPositive(root, a, b);
        ScaledBack(DotOf(a, b), root(Norm(a)) * root(Norm(b)));
        PositiveFactor(DotOf(a, b), root(Norm(a)) * root(Norm(b)));
      }
    }
    hide Dot, Sum, Products;
  }

  lemma PositiveFactor(d: real, s: real)
    requires s > 0.0
    ensures (d * s > 0.0 <==> d > 0.0) && (d * s < 0.0 <==> d < 0.0)
  {
  }

  lemma {:induction false} DotCommutes(a: Vector, b: Vector, k: nat)
    requires k <= |a| && k <= |b|
    ensures Dot(a, b, k) == Dot(b, a, k)
  {
    if k > 0 { DotCommutes(a, b, k - 1); }
  }

  function Scaled(a: Vector, t: real): (r: Vector)
    ensures |r| == |a| && forall i | 0 <= i < |r| :: r[i] == t * a[i]
  {
    seq(|a|, i requires 0 <= i < |a| => t * a[i])
  }

  lemma {:induction false} DotScaled(a: Vector, t: real, k: nat)
    requires k <= |a|
    ensures Dot(a, Scaled(a, t), k) == t * Dot(a, a, k)
    ensures Dot(Scaled(a, t), Scaled(a, t), k) == t * t * Dot(a, a, k)
  {
    if k > 0 {
      DotScaled(a, t, k - 1);
      var x, n := a[k - 1], Dot(a, a, k - 1);
      assert t * (n + x * x) == t * n + x * (t * x);
      assert t * t * (n + x * x) == t * t * n + (t * x) * (t * x);
    }
  }

  lemma SameRoot(p: real, q: real)
    requires p > 0.0 && q > 0.0 && p * p == q * q
    ensures p == q
  {
    if p > q { SquareGrows(p, q); }
    if q > p { SquareGrows(q, p); }
  }

  /** A vector points in the direction of its positive multiples and against its negative ones. */
  lemma CosineOfMultiple(root: real -> real, a: Vector, t: real)
    requires IsRoot(root) && Sum(Products(a, a)) != 0.0 && t != 0.0
    ensures Cosine(root, a, Scaled(a, t)) == if t > 0.0 then 1.0 else -1.0
  {
    DotOfIsSum(a, a);
    hide Sum, Products;
    if t > 0.0 { MultipleAlong(root, a, t, t); } else { MultipleAlong(root, a, t, -t); }
  }

  lemma MultipleAlong(root: real -> real, a: Vector, t: real, w: real)
    requires IsRoot(root) && Norm(a) != 0.0 && w > 0.0 && (w == t || w == -t)
    ensures Cosine(root, a, Scaled(a, t)) == if w == t then 1.0 else -1.0
  {
    var b, n := Scaled(a, t), Norm(a);
    SquaresNonNegative(a, |a|);
    ScaledNorm(a, t, w);
    RootsPositive(root, a, b);
    Regroup(root(n), root(Norm(b)));
    MultipleScale(root(n) * root(Norm(b)), n, w, t);
    RatioOfMultiple(t, w, n);
    hide Dot;
  }

  lemma ScaledNorm(a: Vector, t: real, w: real)
    requires Norm(a) > 0.0 && w > 0.0 && (w == t || w == -t)
    ensures Norm(Scaled(a, t)) == t * t * Norm(a) && DotOf(a, Scaled(a, t)) == t * Norm(a) && Norm(Scaled(a, t)) > 0.0
  {
    var b, n := Scaled(a, t), Norm(a);
    DotScaled(a, t, |a|);
    SameSquare(t, w);
    ProductPositive(w, w, t * t);
    ProductPositive(t * t, n, Norm(b));
  }

  lemma SameSquare(t: real, w: real)
    requires w == t || w == -t
    ensures t * t == w * w
  {
  }

  lemma ProductPositive(u: real, n: real, m: real)
    requires u > 0.0 && n > 0.0 && m == u * n
    ensures m > 0.0
  {
    PositiveProduct(u, n);
  }

  lemma PositiveProduct(x: real, y: real)
    requires x > 0.0 && y > 0.0
    ensures x * y > 0.0
  {
  }

  lemma MultipleScale(s: real, n: real, w: real, t: real)
    requires s > 0.0 && n > 0.0 && w > 0.0 && (w == t || w == -t) && s * s == n * (t * t * n)
    ensures s == w * n
  {
    var u := t * t;
    assert w * w == u;
    Regroup(w, n);
    Shuffle(u, n);
    assert w * n > 0.0;
    SameRoot(s, w * n);
  }

  lemma Shuffle(u: real, n: real)
    ensures u * (n * n) == n * (u * n)
  {
  }

  lemma QuotientIs(d: real, s: real, q: real)
    requires s != 0.0 && d == q * s
    ensures d / s == q
  {
  }

  lemma RatioOfMultiple(t: real, w: real, n: real)
    requires n > 0.0 && w > 0.0 && (w == t || w == -t)
    ensures (t * n) / (w * n) == if w == t then 1.0 else -1.0
  {
    assert w * n > 0.0;
    QuotientIs(t * n, w * n, if w == t then 1.0 else -1.0);
  }

  // ---- centring ----

  /** `center`. */
  function Center(v: Vector, mean: Vector): (r: Vector)
    ensures |r| == |v|
    ensures mean != [] && |mean| == |v| ==> forall i | 0 <= i < |v| :: r[i] == v[i] - mean[i]
    ensures mean == [] || |mean| != |v| ==> r == v
  {
    if mean == [] || |mean| != |v| then v else seq(|v|, i requires 0 <= i < |v| => v[i] - mean[i])
  }

  function CenterAll(vectors: seq<Vector>, mean: Vector): (r: seq<Vector>)
    ensures |r| == |vectors| && forall k | 0 <= k < |r| :: r[k] == Center(vectors[k], mean)
  {
    seq(|vectors|, k requires 0 <= k < |vectors| => Center(vectors[k], mean))
  }

  ghost predicate SameLength(vectors: seq<Vector>, n: nat) {
    n > 0 && forall k | 0 <= k < |vectors| :: |vectors[k]| == n
  }

  lemma OneMore(k: nat, m: real)
    requires k > 0
    ensures k as real * m == (k - 1) as real * m + m
  {
    assert k as real == (k - 1) as real + 1.0;
  }

  lemma OneLess(k: nat, sum: real, v: real, m: real)
    requires k > 0
    ensures (sum - (k - 1) as real * m) + (v - m) == (sum + v) - k as real * m
  {
    OneMore(k, m);
  }

  /** Vectors that differ by one amount in a component. */
  lemma {:induction false} SumOff(a: seq<Vector>, b: seq<Vector>, m: real, k: nat, i: nat)
    requires |a| == |b| && k <= |a| && forall j | 0 <= j < |a| :: i < |a[j]| && i < |b[j]| && b[j][i] == a[j][i] - m
    ensures SumTo(b, k, i) == SumTo(a, k, i) - k as real * m
  {
    if k > 0 {
      SumOff(a, b, m, k - 1, i);
      SumStep(a, k, i);
      SumStep(b, k, i);
      hide SumTo;
      OneLess(k, SumTo(a, k - 1, i), a[k - 1][i], m);
    }
  }

  lemma CenteredSum(vectors: seq<Vector>, n: nat, mean: Vector, k: nat, i: nat)
    requires SameLength(vectors, n) && |mean| == n && k <= |vectors| && i < n
    ensures SumTo(CenterAll(vectors, mean), k, i) == SumTo(vectors, k, i) - k as real * mean[i]
  {
    hide SumTo, CenterAll, Center;
    SumOff(vectors, CenterAll(vectors, mean), mean[i], k, i);
  }

  lemma SumStep(vectors: seq<Vector>, k: nat, i: nat)
    requires 0 < k <= |vectors| && forall j | 0 <= j < |vectors| :: i < |vectors[j]|
    ensures SumTo(vectors, k, i) == SumTo(vectors, k - 1, i) + vectors[k - 1][i]
  {
  }

  /** The centred corpus sums to zero in every component. */
  lemma CenteredSumsToZero(vectors: seq<Vector>, n: nat, i: nat)
    requires SameLength(vectors, n) && vectors != [] && i < n
    ensures Even(vectors) && SumTo(CenterAll(vectors, Mean(vectors)), |vectors|, i) == 0.0
  {
    assert |vectors[0]| == n;
    CenteredSum(vectors, n, Mean(vectors), |vectors|, i);
  }

  function Shift(v: Vector, c: Vector): (r: Vector)
    requires |v| == |c|
    ensures |r| == |v| && forall i | 0 <= i < |v| :: r[i] == v[i] + c[i]
  {
    seq(|v|, i requires 0 <= i < |v| => v[i] + c[i])
  }

  function ShiftAll(vectors: seq<Vector>, c: Vector): (r: seq<Vector>)
    requires forall k | 0 <= k < |vectors| :: |vectors[k]| == |c|
    ensures |r| == |vectors| && forall k | 0 <= k < |r| :: r[k] == Shift(vectors[k], c)
  {
    seq(|vectors|, k requires 0 <= k < |vectors| => Shift(vectors[k], c))
  }

  lemma {:induction false} ShiftedSum(vectors: seq<Vector>, c: Vector, k: nat, i: nat)
    requires (forall j | 0 <= j < |vectors| :: |vectors[j]| == |c|) && k <= |vectors| && i < |c|
    ensures SumTo(ShiftAll(vectors, c), k, i) == SumTo(vectors, k, i) + k as real * c[i]
  {
    if k > 0 {
      ShiftedSum(vectors, c, k - 1, i);
      OneMore(k, c[i]);
    }
  }

  /** Shifting every vector shifts the mean. */
  lemma ShiftedMean(vectors: seq<Vector>, c: Vector)
    requires vectors != [] && SameLength(vectors, |c|)
    ensures Even(vectors) && Even(ShiftAll(vectors, c))
    ensures |Mean(vectors)| == |c| && Mean(ShiftAll(vectors, c)) == Shift(Mean(vectors), c)
  {
    var shifted := ShiftAll(vectors, c);
    assert |vectors[0]| == |c| && |shifted[0]| == |c|;
    forall i | 0 <= i < |c| ensures Mean(shifted)[i] == Shift(Mean(vectors), c)[i] {
      ShiftedSum(vectors, c, |vectors|, i);
      hide SumTo;
      MeanOfSum(SumTo(shifted, |vectors|, i), SumTo(vectors, |vectors|, i), |vectors| as real, c[i]);
    }
  }

  lemma MeanOfSum(sum: real, total: real, n: real, c: real)
    requires n > 0.0 && sum == total + n * c
    ensures sum / n == total / n + c
  {
    assert n * c / n == c;
  }

  /** Adding one constant vector to a vector and to the mean does not change what is centred. */
  lemma ShiftedCenter(v: Vector, mean: Vector, c: Vector)
    requires |v| == |mean| == |c| && c != []
    ensures Center(Shift(v, c), Shift(mean, c)) == Center(v, mean)
  {
  }

  // ---- ranking ----

  datatype Scorable = Scorable(path: string, vector: Vector)

  datatype Query = Query(vector: Vector, topK: int, floor: Option<real>, excluded: set<string>)

  /** The record is not excluded and not below the similarity floor. */
  predicate Eligible(root: real -> real, q: Query, r: Scorable) {
    r.path !in q.excluded && (q.floor.Some? ==> Cosine(root, q.vector, r.vector) >= q.floor.value)
  }

  /** The eligible records with their scores, in the order given. */
  function Scored(root: real -> real, q: Query, records: seq<Scorable>): seq<(string, real)> {
    if records == [] then []
    else
      var before := Scored(root, q, records[..|records| - 1]);
      var last := records[|records| - 1];
      if Eligible(root, q, last) then before + [(last.path, Cosine(root, q.vector, last.vector))] else before
  }

  /** `a` comes before `b` or they are equal: a higher score, then the lesser path. */
  predicate Ahead(a: (string, real), b: (string, real)) {
    a.1 > b.1 || (a.1 == b.1 && Frontmatter.Leq(a.0, b.0))
  }

  ghost predicate Ordered(s: seq<(string, real)>) {
    forall i, j | 0 <= i < j < |s| :: Ahead(s[i], s[j])
  }

  function Top(s: seq<(string, real)>, k: int): seq<(string, real)> {
    if 0 < k < |s| then s[..k] else s
  }

  /** `r` is the sorted top of exactly these scores. */
  ghost predicate IsRanking(scored: seq<(string, real)>, k: int, r: seq<(string, real)>) {
    exists s :: Ordered(s) && multiset(s) == multiset(scored) && r == Top(s, k)
  }

  lemma AheadTotal(a: (string, real), b: (string, real))
    ensures Ahead(a, b) || Ahead(b, a)
    ensures Ahead(a, b) && Ahead(b, a) ==> a == b
  {
    Frontmatter.LeqTotal(a.0, b.0);
  }

  lemma AheadTransitive(a: (string, real), b: (string, real), c: (string, real))
    requires Ahead(a, b) && Ahead(b, c)
    ensures Ahead(a, c)
  {
    if Frontmatter.Leq(a.0, b.0) && Frontmatter.Leq(b.0, c.0) { Frontmatter.LeqTransitive(a.0, b.0, c.0); }
  }

  /** `scored.sort(...)`, one insertion at a time. */
  method SortScored(scored: seq<(string, real)>) returns (s: seq<(string, real)>)
    ensures Ordered(s) && multiset(s) == multiset(scored)
  {
    s := [];
    for k := 0 to |scored|
      invariant Ordered(s) && multiset(s) == multiset(scored[..k])
    {
      var x := scored[k];
      var n: nat := |s|;
      while n > 0 && !Ahead(s[n - 1], x)
        invariant n <= |s|
        invariant forall i | n <= i < |s| :: !Ahead(s[i], x)
      {
        n := n - 1;
      }
      InsertOrdered(s, n, x);
      assert scored[..k + 1] == scored[..k] + [x] && s == s[..n] + s[n..];
      s := s[..n] + [x] + s[n..];
    }
    assert scored[..|scored|] == scored;
  }

  lemma InsertOrdered(s: seq<(string, real)>, n: nat, x: (string, real))
    requires Ordered(s) && n <= |s| && (n > 0 ==> Ahead(s[n - 1], x)) && forall i | n <= i < |s| :: !Ahead(s[i], x)
    ensures Ordered(s[..n] + [x] + s[n..])
  {
    hide Ahead;
    var t := s[..n] + [x] + s[n..];
    forall i | 0 <= i < n ensures Ahead(s[i], x) {
      if i < n - 1 { AheadTransitive(s[i], s[n - 1], x); }
    }
    forall i | n <= i < |s| ensures Ahead(x, s[i]) { AheadTotal(s[i], x); }
    forall i, j | 0 <= i < j < |t| ensures Ahead(t[i], t[j]) {
      var a, b := if i < n then i else i - 1, if j < n then j else j - 1;
      if i != n && j != n { assert t[i] == s[a] && t[j] == s[b]; }
    }
  }

  /** `rank`. */
  method Rank(root: real -> real, q: Query, records: seq<Scorable>) returns (r: seq<(string, real)>)
    requires IsRoot(root)
    ensures IsRanking(Scored(root, q, records), q.topK, r)
  {
    hide Cosine;
    var scored := [];
    for k := 0 to |records|
      invariant scored == Scored(root, q, records[..k])
    {
      assert records[..k + 1][..k] == records[..k];
      if records[k].path !in q.excluded {
        var score := ComputeCosine(root, q.vector, records[k].vector);
        if q.floor.None? || score >= q.floor.value { scored := scored + [(records[k].path, score)]; }
      }
    }
    assert records[..|records|] == records;
    var s := SortScored(scored);
    r := Top(s, q.topK);
  }

  /** The ranking holds exactly the scores of eligible records, and none left out belongs ahead of one
      that is in it. */
  lemma RankingIsTop(scored: seq<(string, real)>, k: int, r: seq<(string, real)>)
    requires IsRanking(scored, k, r)
    ensures Ordered(r) && multiset(r) <= multiset(scored) && (0 < k < |scored| ==> |r| == k) && (!(0 < k < |scored|) ==> |r| == |scored|)
    ensures forall x, y | x in multiset(scored) - multiset(r) && y in r :: Ahead(y, x)
  {
    hide Ahead;
    var s :| Ordered(s) && multiset(s) == multiset(scored) && r == Top(s, k);
    assert |multiset(s)| == |s| && |multiset(scored)| == |scored|;
    assert s == r + s[|r|..];
    assert multiset(scored) - multiset(r) == multiset(s[|r|..]);
    forall x, y | x in multiset(scored) - multiset(r) && y in r ensures Ahead(y, x) { LaterBehind(s, |r|, x, y); }
  }

  lemma LaterBehind(s: seq<(string, real)>, n: nat, x: (string, real), y: (string, real))
    requires n <= |s| && Ordered(s) && x in s[n..] && y in s[..n]
    ensures Ahead(y, x)
  {
    hide Ahead;
    var i :| 0 <= i < |s[n..]| && s[n..][i] == x;
    var j :| 0 <= j < n && s[..n][j] == y;
    assert s[j] == y && s[n + i] == x;
  }

  lemma {:induction false} OrderedUnique(s: seq<(string, real)>, t: seq<(string, real)>)
    requires Ordered(s) && Ordered(t) && multiset(s) == multiset(t)
    ensures s == t
  {
    hide Ahead;
    assert |multiset(s)| == |s| && |multiset(t)| == |t|;
    if s != [] {
      assert s[0] in multiset(t) && t[0] in multiset(s);
      HeadAhead(s, t[0]);
      HeadAhead(t, s[0]);
      AheadTotal(s[0], t[0]);
      HeadTail(s);
      HeadTail(t);
      OrderedUnique(s[1..], t[1..]);
    }
  }

  lemma HeadTail(s: seq<(string, real)>)
    requires s != []
    ensures s == [s[0]] + s[1..] && multiset(s[1..]) == multiset(s) - multiset{s[0]}
  {
    assert s == [s[0]] + s[1..];
  }

  lemma HeadAhead(s: seq<(string, real)>, x: (string, real))
    requires Ordered(s) && x in s
    ensures Ahead(s[0], x)
  {
    AheadTotal(x, x);
  }

  /** The ranking does not depend on the order the records are stored in. */
  lemma RankingUnique(a: seq<(string, real)>, b: seq<(string, real)>, k: int, r: seq<(string, real)>, q: seq<(string, real)>)
    requires multiset(a) == multiset(b) && IsRanking(a, k, r) && IsRanking(b, k, q)
    ensures r == q
  {
    var s :| Ordered(s) && multiset(s) == multiset(a) && r == Top(s, k);
    var t :| Ordered(t) && multiset(t) == multiset(b) && q == Top(t, k);
    OrderedUnique(s, t);
  }

  /** What is ranked: for each record, in order, that is not excluded and not below the floor, its path with
      its cosine; nothing else. */
  lemma {:induction false} ScoredExactly(root: real -> real, q: Query, records: seq<Scorable>, x: (string, real))
    ensures x in Scored(root, q, records) <==>
              exists k | 0 <= k < |records| ::
                && records[k].path !in q.excluded && x == (records[k].path, Cosine(root, q.vector, records[k].vector))
                && (q.floor == None || q.floor.value <= x.1)
    ensures |Scored(root, q, records)| <= |records|
  {
    hide Cosine;
    if records != [] {
      var before := records[..|records| - 1];
      ScoredExactly(root, q, before, x);
      assert forall k | 0 <= k < |before| :: before[k] == records[k];
    }
  }

  /** A record whose vector is a positive multiple of the query is unsurpassed: unless it is excluded or the
      floor is above 1, the ranking starts with a score of 1, and no score exceeds it. */
  lemma ParallelIsBest(root: real -> real, q: Query, records: seq<Scorable>, k: nat, t: real, r: seq<(string, real)>)
    requires IsRoot(root) && Sum(Products(q.vector, q.vector)) != 0.0
    requires k < |records| && records[k].vector == Scaled(q.vector, t) && t > 0.0
    requires records[k].path !in q.excluded && (q.floor == None || q.floor.value <= 1.0)
    requires IsRanking(Scored(root, q, records), q.topK, r)
    ensures (records[k].path, 1.0) in Scored(root, q, records)
    ensures r != [] && r[0].1 == 1.0 && forall x | x in Scored(root, q, records) :: x.1 <= 1.0
  {
    CosineOfMultiple(root, q.vector, t);
    var best := (records[k].path, 1.0);
    hide Cosine, Sum, Products, IsRoot;
    ScoredExactly(root, q, records, best);
    forall x | x in Scored(root, q, records) ensures x.1 <= 1.0 {
      ScoredExactly(root, q, records, x);
      var j :| 0 <= j < |records| && x == (records[j].path, Cosine(root, q.vector, records[j].vector));
      CosineBounded(root, q.vector, records[j].vector);
    }
    hide Scored;
    TopScore(Scored(root, q, records), q.topK, r, best);
  }

  lemma TopScore(scored: seq<(string, real)>, k: int, r: seq<(string, real)>, best: (string, real))
    requires IsRanking(scored, k, r) && best in scored && forall x | x in scored :: x.1 <= best.1
    ensures r != [] && r[0].1 == best.1
  {
    var s :| Ordered(s) && multiset(s) == multiset(scored) && r == Top(s, k);
    assert best in multiset(scored) && best in multiset(s);
    HeadAhead(s, best);
    assert s[0] in multiset(s) && s[0] in scored;
    assert r[0] == s[0];
  }

  // ---- the centred ranking ----

  function CenteredRecords(records: seq<Scorable>, mean: Vector): (r: seq<Scorable>)
    ensures |r| == |records| && forall i | 0 <= i < |r| :: r[i] == records[i].(vector := Center(records[i].vector, mean))
  {
    seq(|records|, i requires 0 <= i < |records| => records[i].(vector := Center(records[i].vector, mean)))
  }

  function VectorsOf(records: seq<Scorable>): (r: seq<Vector>)
    ensures |r| == |records| && forall i | 0 <= i < |r| :: r[i] == records[i].vector
  {
    seq(|records|, i requires 0 <= i < |records| => records[i].vector)
  }

  function ShiftRecords(records: seq<Scorable>, c: Vector): (r: seq<Scorable>)
    requires forall i | 0 <= i < |records| :: |records[i].vector| == |c|
    ensures |r| == |records| && forall i | 0 <= i < |r| :: r[i] == records[i].(vector := Shift(records[i].vector, c))
  {
    seq(|records|, i requires 0 <= i < |records| => records[i].(vector := Shift(records[i].vector, c)))
  }

  /** `query`, on a centred index: the scores that are ranked. */
  function CenteredScores(root: real -> real, q: Query, records: seq<Scorable>): seq<(string, real)>
    requires records != [] && Even(VectorsOf(records))
  {
    var mean := Mean(VectorsOf(records));
    Scored(root, q.(vector := Center(q.vector, mean)), CenteredRecords(records, mean))
  }

  /** Adding one constant vector to every note and to the query leaves the centred scores, and so the
      centred ranking, exactly as they are. */
  lemma CenteredRankingIgnoresShift(root: real -> real, q: Query, records: seq<Scorable>, c: Vector)
    requires records != [] && c != [] && |q.vector| == |c| && forall i | 0 <= i < |records| :: |records[i].vector| == |c|
    ensures Even(VectorsOf(records)) && Even(VectorsOf(ShiftRecords(records, c)))
    ensures CenteredScores(root, q.(vector := Shift(q.vector, c)), ShiftRecords(records, c)) == CenteredScores(root, q, records)
  {
    var vectors := VectorsOf(records);
    ShiftedMean(vectors, c);
    assert VectorsOf(ShiftRecords(records, c)) == ShiftAll(vectors, c);
    var mean := Mean(vectors);
    ShiftedCenter(q.vector, mean, c);
    forall i | 0 <= i < |records|
      ensures CenteredRecords(ShiftRecords(records, c), Shift(mean, c))[i] == CenteredRecords(records, mean)[i]
    {
      ShiftedCenter(records[i].vector, mean, c);
    }
    assert CenteredRecords(ShiftRecords(records, c), Shift(mean, c)) == CenteredRecords(records, mean);
  }
}
