/** Smoothing followed by decimation (`averaging_policy`): every iteration is
    convolved with the flat kernel of size `av_scale` and then only every
    `av_scale`-th row is kept; a supplied vector matrix is decimated with the
    same stride. */
module Averaging {
  import opened Results
  import opened Vectors
  import opened Kernels
  import opened Convolution

  /** Python's slice `s[::stride]`: the first element, then every
      stride-th one after it. */
  function Subsample<T>(s: seq<T>, stride: nat): seq<T>
    requires stride > 0
    decreases |s|
  {
    if s == [] then [] else [s[0]] + Subsample(s[if stride < |s| then stride else |s|..], stride)
  }

  /** `s[::stride]` has ceil(|s| / stride) elements. */
  lemma {:induction false} SubsampleLength<T>(s: seq<T>, stride: nat)
    requires stride > 0
    ensures |Subsample(s, stride)| == (|s| + stride - 1) / stride
    decreases |s|
  {
    if s != [] {
      var rest := s[if stride < |s| then stride else |s|..];
      assert |Subsample(s, stride)| == 1 + |Subsample(rest, stride)|;
      SubsampleLength(rest, stride);
      if stride < |s| {
        assert |rest| + stride - 1 == |s| - 1;
        DivStep(|s| - 1, stride);
      } else {
        assert |rest| == 0;
        DivUnique(|s| + stride - 1, stride, 1, |s| - 1);
      }
    }
  }

  lemma MulBounds(k: int, d: int)
    requires d > 0
    ensures k >= 1 ==> k * d >= d
    ensures k <= -1 ==> k * d <= -d
  {
    if k >= 1 {
      assert k * d == (k - 1) * d + d;
      assert (k - 1) * d >= 0;
    }
    if k <= -1 {
      assert k * d == (k + 1) * d - d;
      assert (k + 1) * d <= 0;
    }
  }

  lemma DivUnique(n: int, d: int, q: int, r: int)
    requires d > 0 && 0 <= r < d && n == q * d + r
    ensures n / d == q
  {
    var q', r' := n / d, n % d;
    assert n == q' * d + r';
    assert (q - q') * d == r' - r;
    MulBounds(q - q', d);
  }

  /** (x + d) / d == x / d + 1. */
  lemma DivStep(x: nat, d: nat)
    requires d > 0
    ensures (x + d) / d == x / d + 1
  {
    var q, r := x / d, x % d;
    assert x == q * d + r;
    DivUnique(x + d, d, q + 1, r);
  }

  lemma MulSucc(j: int, d: int)
    ensures j * d == d + (j - 1) * d
  {
  }

  /** Element j of `s[::stride]` is element j * stride of `s`. */
  lemma {:induction false} SubsampleAt<T>(s: seq<T>, stride: nat, j: nat)
    requires stride > 0
    requires j < |Subsample(s, stride)|
    ensures j * stride < |s|
    ensures Subsample(s, stride)[j] == s[j * stride]
    decreases j
  {
    if j > 0 {
      var rest := s[if stride < |s| then stride else |s|..];
      assert Subsample(s, stride)[j] == Subsample(rest, stride)[j - 1];
      SubsampleAt(rest, stride, j - 1);
      assert rest != [];
      MulSucc(j, stride);
    }
  }

  /** What `averaging_policy` returns: the decimated colours alone, or
      together with the decimated vector matrix. */
  datatype Averaged =
    | ColorsOnly(colors: seq<seq<Vec3>>)
    | ColorsAndVectors(colors: seq<seq<Vec3>>, vectors: seq<Vec3>)

  /** The result of `averaging_policy(color_matrix, vector_matrix, av_scale)`.
      A size that is not positive fails in the kernel constructor; a failing
      convolution fails the whole call. `if vector_matrix:` holds for a
      present, nonempty vector list. */
  function AveragingOf(colorMatrix: seq<seq<Vec3>>, vectorMatrix: Option<seq<Vec3>>, avScale: int): Result<Averaged>
  {
    if avScale <= 0 then Err(KernelError(avScale))
    else
      match LinearConvolved(colorMatrix, UniformFlat(avScale))
      case Err(e) => Err(e)
      case Ok(convolved) =>
        var colors := seq(|convolved|, i requires 0 <= i < |convolved| => Subsample(convolved[i], avScale));
        if vectorMatrix.Some? && |vectorMatrix.value| > 0 then
          Ok(ColorsAndVectors(colors, Subsample(vectorMatrix.value, avScale)))
        else
          Ok(ColorsOnly(colors))
  }

  /** The call succeeds exactly when the scale is positive and no iteration is
      shorter than it; it returns the vectors exactly when they were given. */
  lemma AveragingSucceeds(colorMatrix: seq<seq<Vec3>>, vectorMatrix: Option<seq<Vec3>>, avScale: int)
    ensures AveragingOf(colorMatrix, vectorMatrix, avScale).Ok?
        <==> avScale > 0 && forall i :: 0 <= i < |colorMatrix| ==> avScale <= |colorMatrix[i]|
    ensures avScale == 0 ==> AveragingOf(colorMatrix, vectorMatrix, avScale) == Err(ZeroDivision)
    ensures avScale < 0 ==> AveragingOf(colorMatrix, vectorMatrix, avScale) == Err(NegativeDimension)
    ensures AveragingOf(colorMatrix, vectorMatrix, avScale).Ok? ==>
              (AveragingOf(colorMatrix, vectorMatrix, avScale).value.ColorsAndVectors?
               <==> vectorMatrix.Some? && |vectorMatrix.value| > 0)
  {
    if avScale > 0 {
      FlatKernelIsMean(avScale);
      LinearConvolvedGathers(colorMatrix, UniformFlat(avScale));
    }
  }

  /** The number of iterations is kept; iteration i keeps ceil(n / av_scale)
      rows, and its row j is row j * av_scale of the smoothed iteration. */
  lemma AveragingRows(colorMatrix: seq<seq<Vec3>>, vectorMatrix: Option<seq<Vec3>>, avScale: int, i: nat, j: nat)
    requires AveragingOf(colorMatrix, vectorMatrix, avScale).Ok?
    requires i < |colorMatrix|
    ensures avScale > 0 && avScale <= |colorMatrix[i]|
    ensures |AveragingOf(colorMatrix, vectorMatrix, avScale).value.colors| == |colorMatrix|
    ensures |AveragingOf(colorMatrix, vectorMatrix, avScale).value.colors[i]|
         == (|colorMatrix[i]| + avScale - 1) / avScale
    ensures j < |AveragingOf(colorMatrix, vectorMatrix, avScale).value.colors[i]| ==>
              j * avScale < |colorMatrix[i]| &&
              AveragingOf(colorMatrix, vectorMatrix, avScale).value.colors[i][j]
              == Smoothed(colorMatrix[i], UniformFlat(avScale))[j * avScale]
  {
    AveragingSucceeds(colorMatrix, vectorMatrix, avScale);
    FlatKernelIsMean(avScale);
    var k := UniformFlat(avScale);
    LinearConvolvedGathers(colorMatrix, k);
    var conv := LinearConvolved(colorMatrix, k).value;
    assert conv[i] == Smoothed(colorMatrix[i], k);
    SubsampleLength(conv[i], avScale);
    if j < |Subsample(conv[i], avScale)| {
      SubsampleAt(conv[i], avScale, j);
    }
  }

  /** A supplied vector matrix is decimated with the same stride, so an
      iteration and the vectors that had the same number of rows still have
      the same number, and row j of each comes from source row j * av_scale. */
  lemma AveragingKeepsGeometryAligned(colorMatrix: seq<seq<Vec3>>, vectors: seq<Vec3>, avScale: int, i: nat, j: nat)
    requires AveragingOf(colorMatrix, Some(vectors), avScale).Ok?
    requires |vectors| > 0
    requires i < |colorMatrix| && |colorMatrix[i]| == |vectors|
    ensures AveragingOf(colorMatrix, Some(vectors), avScale).value.ColorsAndVectors?
    ensures |AveragingOf(colorMatrix, Some(vectors), avScale).value.colors| == |colorMatrix|
    ensures |AveragingOf(colorMatrix, Some(vectors), avScale).value.vectors|
         == |AveragingOf(colorMatrix, Some(vectors), avScale).value.colors[i]|
    ensures j < |AveragingOf(colorMatrix, Some(vectors), avScale).value.vectors| ==>
              j * avScale < |vectors| &&
              AveragingOf(colorMatrix, Some(vectors), avScale).value.vectors[j] == vectors[j * avScale]
  {
    AveragingSucceeds(colorMatrix, Some(vectors), avScale);
    AveragingRows(colorMatrix, Some(vectors), avScale, i, j);
    SubsampleLength(vectors, avScale);
    if j < |Subsample(vectors, avScale)| {
      SubsampleAt(vectors, avScale, j);
    }
  }
}
