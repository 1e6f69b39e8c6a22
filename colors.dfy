/** Colour by projection onto a set of reference vectors
    (`atomic_dot_product`). */
module Colors {
  import opened Vectors

  /** `atomic_dot_product(color_vector, relative_vector_set)`: the dot product
      of the vector with each reference vector, in order. */
  function AtomicDotProduct(colorVector: Vec3, relativeVectorSet: seq<Vec3>): (r: seq<real>)
    ensures |r| == |relativeVectorSet|
  {
    seq(|relativeVectorSet|, i requires 0 <= i < |relativeVectorSet| => Dot(colorVector, relativeVectorSet[i]))
  }

  /** The standard basis, the axis-aligned reference set. */
  const StandardBasis: seq<Vec3> := [[1.0, 0.0, 0.0], [0.0, 1.0, 0.0], [0.0, 0.0, 1.0]]

  /** The fixed reference set of the arrow layout. */
  const ArrowBasis: seq<Vec3> := [[1.0, 1.0, 0.0], [-1.0, 0.0, 1.0], [0.0, 1.0, 0.0]]

  /** Projecting onto the standard basis returns the vector itself. */
  lemma StandardBasisIsIdentity(v: Vec3)
    ensures AtomicDotProduct(v, StandardBasis) == v
  {
    var r := AtomicDotProduct(v, StandardBasis);
    assert r[0] == v[0] && r[1] == v[1] && r[2] == v[2];
  }

  /** The arrow colour of (x, y, z) is (x + y, -x + z, y). */
  lemma ArrowColor(v: Vec3)
    ensures AtomicDotProduct(v, ArrowBasis) == [v[0] + v[1], -v[0] + v[2], v[1]]
  {
    var r := AtomicDotProduct(v, ArrowBasis);
    assert r[0] == v[0] + v[1] && r[1] == -v[0] + v[2] && r[2] == v[1];
  }

  /** Normalising then projecting onto the standard basis reproduces the
      normalised field: a unit vector for a nonzero node, [0,0,0] for a zero
      one. */
  lemma NormalizedStandardColors(v: Vec3, norm: Vec3 -> real)
    requires IsEuclideanNorm(norm)
    ensures AtomicDotProduct(Normalize(v, norm), StandardBasis) == Normalize(v, norm)
    ensures IsZero(v) ==> AtomicDotProduct(Normalize(v, norm), StandardBasis) == Zero
  {
    StandardBasisIsIdentity(Normalize(v, norm));
  }
}
