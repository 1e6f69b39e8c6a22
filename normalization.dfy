/** Zero-safe unit normalisation of whole iterations (`atomic_normalization`)
    and of a sequence of iterations (`apply_normalization`). */
module Normalization {
  import opened Results
  import opened Vectors

  /** Whether `np.array(rows).reshape(xc*yc*zc, 3)` succeeds for an N x 3
      array: the product must equal N, or be negative, which numpy reads as
      "infer this dimension" (and then infers N). */
  predicate ReshapeFits(rows: nat, xc: int, yc: int, zc: int)
  {
    xc * yc * zc == rows || xc * yc * zc < 0
  }

  /** `atomic_normalization(color_array, xc, yc, zc)`: every all-zero row
      becomes [0,0,0] and every other row a unit positive multiple of itself;
      rows keep their order, and the reshape refuses a row count that does not
      match the grid. */
  function AtomicNormalization(colorArray: seq<Vec3>, xc: int, yc: int, zc: int, norm: Vec3 -> real): (r: Result<seq<Vec3>>)
    requires IsEuclideanNorm(norm)
    ensures r.Ok? <==> ReshapeFits(|colorArray|, xc, yc, zc)
    ensures r.Err? ==> r.error == ShapeMismatch
    ensures r.Ok? ==> |r.value| == |colorArray|
    ensures r.Ok? ==> forall i :: 0 <= i < |colorArray| && IsZero(colorArray[i]) ==> r.value[i] == Zero
    ensures r.Ok? ==> forall i :: 0 <= i < |colorArray| && !IsZero(colorArray[i]) ==>
                        SqNorm(r.value[i]) == 1.0 && IsUnitMultiple(r.value[i], colorArray[i])
  {
    if ReshapeFits(|colorArray|, xc, yc, zc) then
      Ok(seq(|colorArray|, i requires 0 <= i < |colorArray| => Normalize(colorArray[i], norm)))
    else
      Err(ShapeMismatch)
  }

  /** `apply_normalization`: one normalisation per iteration, gathered in
      order; the first failure fails the whole call. */
  function ApplyNormalization(colorArray: seq<seq<Vec3>>, xc: int, yc: int, zc: int, norm: Vec3 -> real): Result<seq<seq<Vec3>>>
    requires IsEuclideanNorm(norm)
  {
    if colorArray == [] then Ok([])
    else
      match AtomicNormalization(colorArray[0], xc, yc, zc, norm)
      case Err(e) => Err(e)
      case Ok(h) => Prepend([h], ApplyNormalization(colorArray[1..], xc, yc, zc, norm))
  }

  /** The gather succeeds exactly when every iteration fits the grid, and then
      holds one normalised iteration per input iteration, in order. */
  lemma {:induction false} ApplyNormalizationGathers(colorArray: seq<seq<Vec3>>, xc: int, yc: int, zc: int, norm: Vec3 -> real)
    requires IsEuclideanNorm(norm)
    ensures ApplyNormalization(colorArray, xc, yc, zc, norm).Ok?
        <==> forall i :: 0 <= i < |colorArray| ==> ReshapeFits(|colorArray[i]|, xc, yc, zc)
    ensures ApplyNormalization(colorArray, xc, yc, zc, norm).Ok? ==>
              |ApplyNormalization(colorArray, xc, yc, zc, norm).value| == |colorArray| &&
              forall i :: 0 <= i < |colorArray| ==>
                ApplyNormalization(colorArray, xc, yc, zc, norm).value[i]
                == AtomicNormalization(colorArray[i], xc, yc, zc, norm).value
  {
    if colorArray != [] {
      var rest := colorArray[1..];
      ApplyNormalizationGathers(rest, xc, yc, zc, norm);
      assert forall i :: 1 <= i < |colorArray| ==> rest[i - 1] == colorArray[i];
      var head := AtomicNormalization(colorArray[0], xc, yc, zc, norm);
      if head.Ok? {
        var tail := ApplyNormalization(rest, xc, yc, zc, norm);
        assert ApplyNormalization(colorArray, xc, yc, zc, norm) == Prepend([head.value], tail);
        if tail.Ok? {
          forall i | 0 <= i < |colorArray|
            ensures ApplyNormalization(colorArray, xc, yc, zc, norm).value[i]
                 == AtomicNormalization(colorArray[i], xc, yc, zc, norm).value
          {
            if i > 0 {
              assert ([head.value] + tail.value)[i] == tail.value[i - 1];
            }
          }
        }
      }
    }
  }

  /** Normalising an already normalised iteration changes nothing. */
  lemma AtomicNormalizationIdempotent(colorArray: seq<Vec3>, xc: int, yc: int, zc: int, norm: Vec3 -> real)
    requires IsEuclideanNorm(norm)
    requires ReshapeFits(|colorArray|, xc, yc, zc)
    ensures AtomicNormalization(AtomicNormalization(colorArray, xc, yc, zc, norm).value, xc, yc, zc, norm)
         == AtomicNormalization(colorArray, xc, yc, zc, norm)
  {
    var once := AtomicNormalization(colorArray, xc, yc, zc, norm).value;
    forall i | 0 <= i < |colorArray|
      ensures Normalize(once[i], norm) == once[i]
    {
      NormalizeIdempotent(norm, colorArray[i]);
    }
    assert ReshapeFits(|once|, xc, yc, zc);
    var twice := AtomicNormalization(once, xc, yc, zc, norm).value;
    assert twice == once;
  }
}
