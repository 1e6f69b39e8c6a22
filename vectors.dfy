/** Node vectors (rows of an N x 3 numpy array) and the zero-safe unit
    normalisation the pipeline applies to them. */
module Vectors {

  /** One node's three components. */
  type Vec3 = v: seq<real> | |v| == 3 witness [0.0, 0.0, 0.0]

  const Zero: Vec3 := [0.0, 0.0, 0.0]

  /** The negation of numpy's `x.any()`: every component is zero. */
  predicate IsZero(v: Vec3)
  {
    v[0] == 0.0 && v[1] == 0.0 && v[2] == 0.0
  }

  /** `np.dot` of two 3-vectors. */
  function Dot(u: Vec3, w: Vec3): real
  {
    u[0] * w[0] + u[1] * w[1] + u[2] * w[2]
  }

  /** The squared Euclidean length. */
  function SqNorm(v: Vec3): real
  {
    Dot(v, v)
  }

  function Scale(c: real, v: Vec3): Vec3
  {
    [c * v[0], c * v[1], c * v[2]]
  }

  /** numpy's element-wise `x / d`. */
  function Divide(v: Vec3, d: real): Vec3
    requires d != 0.0
  {
    [v[0] / d, v[1] / d, v[2] / d]
  }

  /** `np.linalg.norm`, taken abstractly: a non-negative square root of the
      squared length. The real square root is the one function meeting it. */
  ghost predicate IsEuclideanNorm(norm: Vec3 -> real)
  {
    forall v: Vec3 :: norm(v) >= 0.0 && norm(v) * norm(v) == SqNorm(v)
  }

  /** `r` is `c * v` for a positive `c` that makes it unit length. */
  ghost predicate IsUnitMultiple(r: Vec3, v: Vec3)
  {
    exists c: real :: c > 0.0 && c * c * SqNorm(v) == 1.0 && r == Scale(c, v)
  }

  /** Real multiplication under a name of its own. Facts about squares are
      stated on `Mul(x, x)` because the solver rewrites a literal `x * x > 0`
      into `x != 0` and then cannot use it. */
  function Mul(a: real, b: real): real
  {
    a * b
  }

  lemma MulPositive(a: real, b: real)
    requires a > 0.0 && b > 0.0
    ensures Mul(a, b) > 0.0
  {
  }

  lemma SquareOfNonzero(x: real)
    requires x != 0.0
    ensures Mul(x, x) > 0.0
  {
    if x > 0.0 {
      MulPositive(x, x);
    } else {
      MulPositive(-x, -x);
      assert Mul(-x, -x) == Mul(x, x);
    }
  }

  lemma SquareNonnegative(x: real)
    ensures Mul(x, x) >= 0.0
  {
    if x != 0.0 {
      SquareOfNonzero(x);
    }
  }

  lemma SqNormZero(v: Vec3)
    ensures SqNorm(v) >= 0.0
    ensures IsZero(v) ==> SqNorm(v) == 0.0
    ensures !IsZero(v) ==> SqNorm(v) > 0.0
  {
    SquareNonnegative(v[0]);
    SquareNonnegative(v[1]);
    SquareNonnegative(v[2]);
    if v[0] != 0.0 {
      SquareOfNonzero(v[0]);
    } else if v[1] != 0.0 {
      SquareOfNonzero(v[1]);
    } else if v[2] != 0.0 {
      SquareOfNonzero(v[2]);
    }
  }

  /** The norm of a vector that is not all zero is positive. */
  lemma NormOfNonzero(norm: Vec3 -> real, v: Vec3)
    requires IsEuclideanNorm(norm)
    requires !IsZero(v)
    ensures norm(v) > 0.0
  {
    SqNormZero(v);
    assert norm(v) * norm(v) == SqNorm(v);
  }

  /** Dividing a nonzero vector by its norm gives a unit positive multiple. */
  lemma DivideByNorm(norm: Vec3 -> real, v: Vec3)
    requires IsEuclideanNorm(norm)
    requires !IsZero(v)
    ensures norm(v) > 0.0
    ensures SqNorm(Divide(v, norm(v))) == 1.0
    ensures IsUnitMultiple(Divide(v, norm(v)), v)
  {
    NormOfNonzero(norm, v);
    var n := norm(v);
    var c := 1.0 / n;
    var r := Divide(v, n);
    assert n * n == SqNorm(v);
    var s := Scale(c, v);
    assert r[0] == c * v[0] == s[0];
    assert r[1] == c * v[1] == s[1];
    assert r[2] == c * v[2] == s[2];
    assert r == s;
    assert c * c * (n * n) == 1.0;
    assert c * c * SqNorm(v) == 1.0;
    calc {
      SqNorm(r);
      (c * v[0]) * (c * v[0]) + (c * v[1]) * (c * v[1]) + (c * v[2]) * (c * v[2]);
      c * c * SqNorm(v);
    }
  }

  /** One row of `atomic_normalization`: an all-zero row becomes [0,0,0],
      any other row is divided by its norm. */
  function Normalize(v: Vec3, norm: Vec3 -> real): (r: Vec3)
    requires IsEuclideanNorm(norm)
    ensures IsZero(v) ==> r == Zero
    ensures !IsZero(v) ==> SqNorm(r) == 1.0 && IsUnitMultiple(r, v)
  {
    if IsZero(v) then Zero
    else
      DivideByNorm(norm, v);
      Divide(v, norm(v))
  }

  /** A unit vector has norm one. */
  lemma NormOfUnit(norm: Vec3 -> real, u: Vec3)
    requires IsEuclideanNorm(norm)
    requires SqNorm(u) == 1.0
    ensures norm(u) == 1.0
  {
    var n := norm(u);
    assert n >= 0.0 && Mul(n, n) == 1.0;
    if n > 1.0 {
      MulPositive(n - 1.0, n + 1.0);
    } else if n < 1.0 {
      MulPositive(1.0 - n, n + 1.0);
    }
  }

  /** Normalising twice is normalising once. */
  lemma NormalizeIdempotent(norm: Vec3 -> real, v: Vec3)
    requires IsEuclideanNorm(norm)
    ensures Normalize(Normalize(v, norm), norm) == Normalize(v, norm)
  {
    var u := Normalize(v, norm);
    if !IsZero(v) {
      SqNormZero(u);
      NormOfUnit(norm, u);
      assert Divide(u, 1.0) == u;
    }
  }
}
