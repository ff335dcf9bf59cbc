/**
 * `FaceRecognitionEngine.compare_faces`: cosine similarity of two embeddings, each divided
 * by its norm plus a small epsilon. Reals stand for numpy's floating point.
 */
module Comparator {
  import opened Wrappers
  import opened Embeddings

  /** Added to each norm before dividing, so that an all-zero embedding never divides by zero. */
  const Epsilon: real := 0.00000001

  type NonNegReal = r: real | r >= 0.0

  /** `numpy.linalg.norm` is a foreign call: the model takes it as a parameter whose results are never negative. */
  type Norm = Embedding -> NonNegReal

  /** `norm` behaves as the Euclidean norm on `v`. */
  ghost predicate IsEuclidean(norm: Norm, v: Embedding) {
    norm(v) * norm(v) == Dot(v, v)
  }

  /** `numpy.dot` of two vectors of equal length. */
  function Dot(a: Embedding, b: Embedding): real
    requires |a| == |b|
  {
    if |a| == 0 then 0.0 else a[0] * b[0] + Dot(a[1..], b[1..])
  }

  /** Every entry of `v` divided by `d`. */
  function Scale(v: Embedding, d: real): (r: Embedding)
    requires d > 0.0
    ensures |r| == |v|
  {
    seq(|v|, i requires 0 <= i < |v| => v[i] / d)
  }

  /** `embedding / (np.linalg.norm(embedding) + 1e-8)`. */
  function Normalize(norm: Norm, v: Embedding): (r: Embedding)
    ensures |r| == |v|
  {
    Scale(v, norm(v) + Epsilon)
  }

  /**
   * `compare_faces(embedding1, embedding2, threshold)`. An absent embedding gives 0.0;
   * two present embeddings of different lengths make `np.dot` raise, and `compare_faces`
   * does not catch it; otherwise the result is the dot product divided by the product of
   * the two epsilon-shifted norms. `threshold` is accepted and never used.
   */
  function CompareFaces(norm: Norm, e1: Option<Embedding>, e2: Option<Embedding>, threshold: real): (r: Outcome<real>)
    ensures e1.None? || e2.None? ==> r == Ok(0.0)
    ensures r.Raised? <==> e1.Some? && e2.Some? && |e1.value| != |e2.value|
    ensures e1.Some? && e2.Some? && |e1.value| == |e2.value| ==>
      r.Ok? && r.value == Dot(e1.value, e2.value) / ((norm(e1.value) + Epsilon) * (norm(e2.value) + Epsilon))
  {
    if e1.None? || e2.None? then
      Ok(0.0)
    else if |e1.value| != |e2.value| then
      Raised
    else
      var a, b := e1.value, e2.value;
      DotScaled(a, b, norm(a) + Epsilon, norm(b) + Epsilon);
      Ok(Dot(Normalize(norm, a), Normalize(norm, b)))
  }

  /** Scaling both arguments of a dot product scales the product. */
  lemma {:induction false} DotScaled(a: Embedding, b: Embedding, p: real, q: real)
    requires |a| == |b| && p > 0.0 && q > 0.0
    ensures Dot(Scale(a, p), Scale(b, q)) == Dot(a, b) / (p * q)
  {
    if |a| > 0 {
      var sa, sb := Scale(a, p), Scale(b, q);
      DotScaled(a[1..], b[1..], p, q);
      assert sa[1..] == Scale(a[1..], p);
      assert sb[1..] == Scale(b[1..], q);
      assert sa[0] == a[0] / p && sb[0] == b[0] / q;
      QuotientProduct(a[0], b[0], p, q);
      var x, y := a[0] * b[0], Dot(a[1..], b[1..]);
      assert Dot(sa, sb) == sa[0] * sb[0] + Dot(sa[1..], sb[1..]);
      assert Dot(sa[1..], sb[1..]) == y / (p * q);
      assert sa[0] * sb[0] == x / (p * q);
      FractionSum(x, y, p * q);
    }
  }

  lemma FractionSum(x: real, y: real, d: real)
    requires d > 0.0
    ensures x / d + y / d == (x + y) / d
  {
  }

  /** The dot product is symmetric. */
  lemma {:induction false} DotSymmetric(a: Embedding, b: Embedding)
    requires |a| == |b|
    ensures Dot(a, b) == Dot(b, a)
  {
    if |a| > 0 {
      DotSymmetric(a[1..], b[1..]);
    }
  }

  /** Similarity is symmetric, including the absent and the mismatched cases. */
  lemma CompareSymmetric(norm: Norm, e1: Option<Embedding>, e2: Option<Embedding>, threshold: real)
    ensures CompareFaces(norm, e1, e2, threshold) == CompareFaces(norm, e2, e1, threshold)
  {
    if e1.Some? && e2.Some? && |e1.value| == |e2.value| {
      DotSymmetric(e1.value, e2.value);
      var p, q := norm(e1.value) + Epsilon, norm(e2.value) + Epsilon;
      assert p * q == q * p;
    }
  }

  /** The `threshold` argument has no effect on the similarity. */
  lemma CompareIgnoresThreshold(norm: Norm, e1: Option<Embedding>, e2: Option<Embedding>, t1: real, t2: real)
    ensures CompareFaces(norm, e1, e2, t1) == CompareFaces(norm, e1, e2, t2)
  {
  }

  /** Twice a dot product is bounded by the sum of the squared lengths, in both signs. */
  lemma {:induction false} DotBoundBySquares(u: Embedding, v: Embedding)
    requires |u| == |v|
    ensures 2.0 * Dot(u, v) <= Dot(u, u) + Dot(v, v)
    ensures -2.0 * Dot(u, v) <= Dot(u, u) + Dot(v, v)
  {
    if |u| > 0 {
      DotBoundBySquares(u[1..], v[1..]);
      var x, y := u[0], v[0];
      SquareNonNegative(x - y);
      SquareNonNegative(x + y);
      assert (x - y) * (x - y) == x * x - 2.0 * x * y + y * y;
      assert (x + y) * (x + y) == x * x + 2.0 * x * y + y * y;
    }
  }

  lemma QuotientProduct(x: real, y: real, p: real, q: real)
    requires p > 0.0 && q > 0.0
    ensures (x / p) * (y / q) == (x * y) / (p * q)
  {
    var s, t := x / p, y / q;
    assert s * p == x && t * q == y;
    assert (s * t) * (p * q) == (s * p) * (t * q);
  }

  lemma SquareNonNegative(t: real)
    ensures t * t >= 0.0
  {
    if t < 0.0 {
      assert t * t == (-t) * (-t);
    }
  }

  /** A vector divided by its Euclidean norm plus epsilon has squared length below one. */
  lemma NormalizedSquareBelowOne(norm: Norm, v: Embedding)
    requires IsEuclidean(norm, v)
    ensures 0.0 <= Dot(Normalize(norm, v), Normalize(norm, v)) < 1.0
  {
    var n := norm(v);
    var d := n + Epsilon;
    DotScaled(v, v, d, d);
    assert Dot(Normalize(norm, v), Normalize(norm, v)) == (n * n) / (d * d);
    assert n * n < d * d by {
      assert d * d == n * n + 2.0 * n * Epsilon + Epsilon * Epsilon;
    }
  }

  /**
   * With Euclidean norms, the similarity of two present embeddings of equal length lies
   * strictly between -1 and 1 (the epsilon keeps it away from the ends).
   */
  lemma CompareBounded(norm: Norm, a: Embedding, b: Embedding, threshold: real)
    requires |a| == |b|
    requires IsEuclidean(norm, a) && IsEuclidean(norm, b)
    ensures CompareFaces(norm, Some(a), Some(b), threshold).Ok?
    ensures -1.0 < CompareFaces(norm, Some(a), Some(b), threshold).value < 1.0
  {
    var u, v := Normalize(norm, a), Normalize(norm, b);
    assert CompareFaces(norm, Some(a), Some(b), threshold) == Ok(Dot(u, v));
    DotBoundBySquares(u, v);
    NormalizedSquareBelowOne(norm, a);
    NormalizedSquareBelowOne(norm, b);
  }

  /**
   * Self-similarity: with a Euclidean norm `n`, an embedding compared with itself scores
   * n^2 / (n + epsilon)^2, which is below 1 and, for a non-zero embedding, at least
   * 1 - 2 * epsilon / n.
   */
  lemma CompareSelf(norm: Norm, a: Embedding, threshold: real)
    requires IsEuclidean(norm, a)
    ensures CompareFaces(norm, Some(a), Some(a), threshold).Ok?
    ensures CompareFaces(norm, Some(a), Some(a), threshold).value ==
      (norm(a) * norm(a)) / ((norm(a) + Epsilon) * (norm(a) + Epsilon))
    ensures 0.0 <= CompareFaces(norm, Some(a), Some(a), threshold).value < 1.0
    ensures norm(a) > 0.0 ==> CompareFaces(norm, Some(a), Some(a), threshold).value >= 1.0 - 2.0 * Epsilon / norm(a)
  {
    var n := norm(a);
    var d := n + Epsilon;
    NormalizedSquareBelowOne(norm, a);
    var s := (n * n) / (d * d);
    assert s * (d * d) == n * n;
    if n > 0.0 {
      var q := 2.0 * Epsilon / n;
      assert q * n == 2.0 * Epsilon;
      assert (1.0 - q) * (d * d) == n * n - (3.0 * Epsilon * Epsilon + q * Epsilon * Epsilon) by {
        assert d * d == n * n + 2.0 * n * Epsilon + Epsilon * Epsilon;
        assert q * (n * n) == 2.0 * Epsilon * n;
        assert q * (2.0 * n * Epsilon) == 4.0 * Epsilon * Epsilon;
      }
      assert 3.0 * Epsilon * Epsilon + q * Epsilon * Epsilon >= 0.0 by {
        assert Epsilon * Epsilon == 0.0000000000000001;
        assert q > 0.0;
        assert q * Epsilon > 0.0;
      }
      CancelPositiveFactor(1.0 - q, s, d * d, n * n, 3.0 * Epsilon * Epsilon + q * Epsilon * Epsilon);
    }
  }

  lemma CancelPositiveFactor(x: real, y: real, p: real, m: real, slack: real)
    requires p > 0.0 && x * p == m - slack && slack >= 0.0 && y * p == m
    ensures x <= y
  {
  }

  /** Zero-safety: an all-zero embedding scores exactly 0.0 against any embedding of its length. */
  lemma CompareZero(norm: Norm, z: Embedding, b: Embedding, threshold: real)
    requires |z| == |b|
    requires forall i :: 0 <= i < |z| ==> z[i] == 0.0
    ensures CompareFaces(norm, Some(z), Some(b), threshold) == Ok(0.0)
  {
    DotZero(z, b);
    var r := CompareFaces(norm, Some(z), Some(b), threshold);
    assert r.Ok? && r.value == 0.0;
  }

  lemma {:induction false} DotZero(z: Embedding, b: Embedding)
    requires |z| == |b|
    requires forall i :: 0 <= i < |z| ==> z[i] == 0.0
    ensures Dot(z, b) == 0.0
  {
    if |z| > 0 {
      DotZero(z[1..], b[1..]);
    }
  }
}
