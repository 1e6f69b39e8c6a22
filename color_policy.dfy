/** The `ColorPolicy` object: its kernel state and the operations that change
    state or work step by step (in-place buffers, gathering loops). What each
    returns is stated through the specification functions of the other
    modules. The process pool of `ColorPolicy.py` is modelled as a sequential
    map that keeps input order. */
module Policy {
  import opened Results
  import opened Vectors
  import opened Kernels
  import opened Convolution
  import opened Averaging
  import opened Colors
  import opened Layout

  class ColorPolicy {
    var dataStructure: string
    var dataStructureTypes: seq<string>
    var averagingKernel: seq<seq<real>>
    var flatAvKernel: seq<real>
    /** What the last assignment left in `self.kernel_size`. */
    var kernelSize: Option<int>

    /** Both kernels are the uniform kernels of one positive size. */
    ghost predicate Valid()
      reads this
    {
      |flatAvKernel| > 0 &&
      flatAvKernel == UniformFlat(|flatAvKernel|) &&
      averagingKernel == UniformSquare(|flatAvKernel|)
    }

    /** `__init__` builds the size-3 kernels. `set_kernel_size` returns
        nothing, so the assignment of its result leaves `kernel_size` None. */
    constructor ()
      ensures Valid()
      ensures dataStructure == "flattened_array"
      ensures dataStructureTypes == ["flattened_array", "interleaved_array", "tensor_array"]
      ensures averagingKernel == UniformSquare(3) && flatAvKernel == UniformFlat(3)
      ensures kernelSize == None
    {
      dataStructure := "flattened_array";
      dataStructureTypes := ["flattened_array", "interleaved_array", "tensor_array"];
      averagingKernel := [];
      flatAvKernel := [];
      kernelSize := None;
      new;
      var _ := SetKernelSize(3);
      kernelSize := None;
    }

    /** `set_kernel_size(size)`: records the size, then builds the k x k kernel
        of 1/k^2 and the flat kernel of k entries 1/k. A size that is not
        positive raises after the size is recorded and before any kernel
        changes. */
    method SetKernelSize(size: int) returns (outcome: Outcome)
      modifies this
      ensures kernelSize == Some(size)
      ensures dataStructure == old(dataStructure) && dataStructureTypes == old(dataStructureTypes)
      ensures size > 0 ==>
                outcome == Pass && Valid() &&
                averagingKernel == UniformSquare(size) && flatAvKernel == UniformFlat(size)
      ensures size == 0 ==> outcome == Fail(ZeroDivision)
      ensures size < 0 ==> outcome == Fail(NegativeDimension)
      ensures size <= 0 ==> averagingKernel == old(averagingKernel) && flatAvKernel == old(flatAvKernel)
      ensures old(Valid()) ==> Valid()
    {
      kernelSize := Some(size);
      if size <= 0 {
        return Fail(KernelError(size));
      }
      averagingKernel := UniformSquare(size);
      flatAvKernel := UniformFlat(size);
      FlatKernelIsMean(size);
      outcome := Pass;
    }

    /** `averaging_policy(color_matrix, vector_matrix, av_scale)`: resizes the
        kernels to `av_scale` (leaving `kernel_size` None), smooths every
        iteration and keeps every `av_scale`-th row of it and of the vector
        matrix. */
    method AveragingPolicy(colorMatrix: seq<seq<Vec3>>, vectorMatrix: Option<seq<Vec3>>, avScale: int)
      returns (r: Result<Averaged>)
      modifies this
      ensures r == AveragingOf(colorMatrix, vectorMatrix, avScale)
      ensures dataStructure == old(dataStructure) && dataStructureTypes == old(dataStructureTypes)
      ensures avScale > 0 ==>
                kernelSize == None && Valid() &&
                averagingKernel == UniformSquare(avScale) && flatAvKernel == UniformFlat(avScale)
      ensures avScale <= 0 ==>
                kernelSize == Some(avScale) &&
                averagingKernel == old(averagingKernel) && flatAvKernel == old(flatAvKernel)
      ensures old(Valid()) ==> Valid()
    {
      var outcome := SetKernelSize(avScale);
      if outcome.Fail? {
        return Err(outcome.error);
      }
      kernelSize := None;
      var convolved := LinearConvolution(colorMatrix);
      if convolved.Err? {
        return Err(convolved.error);
      }
      var smoothed := convolved.value;
      var colors := seq(|smoothed|, i requires 0 <= i < |smoothed| => Subsample(smoothed[i], avScale));
      if vectorMatrix.Some? && |vectorMatrix.value| > 0 {
        r := Ok(ColorsAndVectors(colors, Subsample(vectorMatrix.value, avScale)));
      } else {
        r := Ok(ColorsOnly(colors));
      }
    }

    /** `linear_convolution(matrix)`: the composite convolution of every
        iteration with the flat kernel, gathered in input order. */
    method LinearConvolution(matrix: seq<seq<Vec3>>) returns (r: Result<seq<seq<Vec3>>>)
      requires Valid()
      ensures r == LinearConvolved(matrix, flatAvKernel)
      ensures r.Ok? <==> forall i :: 0 <= i < |matrix| ==> |flatAvKernel| <= |matrix[i]|
    {
      var newColorMatrix: seq<seq<Vec3>> := [];
      var i := 0;
      LinearConvolvedGathers(matrix, flatAvKernel);
      assert matrix[0..] == matrix;
      PrependNothing(LinearConvolved(matrix, flatAvKernel));
      while i < |matrix|
        invariant 0 <= i <= |matrix|
        invariant LinearConvolved(matrix, flatAvKernel) == Prepend(newColorMatrix, LinearConvolved(matrix[i..], flatAvKernel))
      {
        assert matrix[i..][0] == matrix[i] && matrix[i..][1..] == matrix[i + 1..];
        var convolved := CompositeConvolution(matrix[i], flatAvKernel);
        if convolved.Err? {
          return Err(convolved.error);
        }
        PrependAppend(newColorMatrix, convolved.value, LinearConvolved(matrix[i + 1..], flatAvKernel));
        newColorMatrix := newColorMatrix + [convolved.value];
        i := i + 1;
      }
      assert matrix[i..] == [] && newColorMatrix + [] == newColorMatrix;
      r := Ok(newColorMatrix);
    }

    /** `composite_convolution(composite_matrix, kernel)`: a zeroed N x 3
        buffer filled column by column with the convolution of that column. */
    static method CompositeConvolution(compositeMatrix: seq<Vec3>, kernel: seq<real>) returns (r: Result<seq<Vec3>>)
      ensures r == CompositeConvolved(compositeMatrix, kernel)
    {
      var n := |compositeMatrix|;
      var resultant := new real[n, 3]((_, _) => 0.0);
      for c := 0 to 3
        invariant c > 0 ==> 0 < |kernel| <= n
        invariant forall j, d :: 0 <= j < n && 0 <= d < c ==> resultant[j, d] == SameAt(Column(compositeMatrix, d), kernel, j)
      {
        var column := AtomicConvolution(Column(compositeMatrix, c), kernel);
        if column.Err? {
          return Err(column.error);
        }
        if |column.value| != n {
          return Err(ShapeMismatch);
        }
        for j := 0 to n
          invariant forall j', d :: 0 <= j' < n && 0 <= d < c ==> resultant[j', d] == SameAt(Column(compositeMatrix, d), kernel, j')
          invariant forall j' :: 0 <= j' < j ==> resultant[j', c] == column.value[j']
        {
          resultant[j, c] := column.value[j];
        }
      }
      var rows := seq(n, j requires 0 <= j < n reads resultant => [resultant[j, 0], resultant[j, 1], resultant[j, 2]]);
      assert rows == Smoothed(compositeMatrix, kernel);
      r := Ok(rows);
    }

    /** `apply_vbo_format(color_array)`: every iteration padded with the
        repeat factor 24, gathered in input order. */
    static method ApplyVboFormat(colorArray: seq<seq<Vec3>>) returns (newColorMatrix: seq<seq<real>>)
      ensures |newColorMatrix| == |colorArray|
      ensures forall i :: 0 <= i < |colorArray| ==> newColorMatrix[i] == ColorMatrixFlatten(colorArray[i], VboRepeat)
    {
      newColorMatrix := [];
      for i := 0 to |colorArray|
        invariant |newColorMatrix| == i
        invariant forall k :: 0 <= k < i ==> newColorMatrix[k] == ColorMatrixFlatten(colorArray[k], VboRepeat)
      {
        var repeatedArray := ColorMatrixFlatten(colorArray[i], VboRepeat);
        newColorMatrix := newColorMatrix + [repeatedArray];
      }
    }

    /** `apply_dot_product(color_array, omf_header)` with the outline that
        `getLayerOutline(omf_header)` would return passed in. The pool hands
        every worker its own copy of the iteration and of the outline, so the
        in-place normalisation of one task is seen by no other and the
        caller's data is untouched. */
    static method ApplyDotProduct(colorArray: seq<seq<Vec3>>, layerOutline: seq<Vec3>, norm: Vec3 -> real)
      returns (newColorMatrix: seq<seq<real>>)
      requires IsEuclideanNorm(norm)
      requires forall i :: 0 <= i < |colorArray| ==> ArrowDefined(colorArray[i], layerOutline)
      ensures |newColorMatrix| == |colorArray|
      ensures forall i :: 0 <= i < |colorArray| ==> newColorMatrix[i] == ArrowInterleaved(colorArray[i], layerOutline, norm)
    {
      newColorMatrix := [];
      for i := 0 to |colorArray|
        invariant |newColorMatrix| == i
        invariant forall k :: 0 <= k < i ==> newColorMatrix[k] == ArrowInterleaved(colorArray[k], layerOutline, norm)
      {
        var tips := Pickled(colorArray[i]);
        var begins := Pickled(layerOutline);
        var interleaved := ComposeArrowInterleaved(tips, begins, norm);
        newColorMatrix := newColorMatrix + [interleaved];
      }
    }

    /** The private copy of its arguments a pool worker receives. */
    static method Pickled(rows: seq<Vec3>) returns (copy: array<Vec3>)
      ensures fresh(copy)
      ensures copy[..] == rows
    {
      copy := new Vec3[|rows|](j requires 0 <= j < |rows| => rows[j]);
    }

    /** `compose_arrow_interleaved_array(raw_vector_data, layer_outline)`:
        walks the nodes both arrays have and, for a nonzero tip, divides tip
        and begin vertex by their norms in place before emitting begin, tip
        and colour; a zero tip is emitted untouched with colour [0,0,0]. */
    static method ComposeArrowInterleaved(rawVectorData: array<Vec3>, layerOutline: array<Vec3>, norm: Vec3 -> real)
      returns (interleavedArray: seq<real>)
      requires IsEuclideanNorm(norm)
      requires rawVectorData != layerOutline
      requires ArrowDefined(rawVectorData[..], layerOutline[..])
      modifies rawVectorData, layerOutline
      ensures interleavedArray == ArrowInterleaved(old(rawVectorData[..]), old(layerOutline[..]), norm)
      ensures rawVectorData[..] == NormalizedTips(old(rawVectorData[..]), NodeCount(old(rawVectorData[..]), old(layerOutline[..])), norm)
      ensures layerOutline[..] == NormalizedBegins(old(rawVectorData[..]), old(layerOutline[..]), NodeCount(old(rawVectorData[..]), old(layerOutline[..])), norm)
    {
      ghost var data := rawVectorData[..];
      ghost var outline := layerOutline[..];
      var n := if rawVectorData.Length <= layerOutline.Length then rawVectorData.Length else layerOutline.Length;
      assert n == NodeCount(data, outline);
      NormalizedNone(data, outline, norm);
      interleavedArray := [];
      for i := 0 to n
        invariant interleavedArray == InterleavePrefix(data, outline, i, norm)
        invariant rawVectorData[..] == NormalizedTips(data, i, norm)
        invariant layerOutline[..] == NormalizedBegins(data, outline, i, norm)
      {
        NormalizedStep(data, outline, i, norm);
        var node := ComposeArrowNode(rawVectorData, layerOutline, i, norm);
        interleavedArray := interleavedArray + node;
      }
    }

    /** One pass of the loop in `compose_arrow_interleaved_array`: node `i`'s
        begin, tip and colour, normalising tip and begin in place when the tip
        is nonzero. */
    static method ComposeArrowNode(rawVectorData: array<Vec3>, layerOutline: array<Vec3>, i: nat, norm: Vec3 -> real)
      returns (node: seq<real>)
      requires IsEuclideanNorm(norm)
      requires rawVectorData != layerOutline
      requires i < rawVectorData.Length && i < layerOutline.Length
      requires !IsZero(rawVectorData[i]) ==> !IsZero(layerOutline[i])
      modifies rawVectorData, layerOutline
      ensures node == ArrowNode(old(layerOutline[i]), old(rawVectorData[i]), norm)
      ensures rawVectorData[..] == old(rawVectorData[..])[i := if IsZero(old(rawVectorData[i])) then old(rawVectorData[i]) else Normalize(old(rawVectorData[i]), norm)]
      ensures layerOutline[..] == old(layerOutline[..])[i := if IsZero(old(rawVectorData[i])) then old(layerOutline[i]) else Normalize(old(layerOutline[i]), norm)]
    {
      var vectorTip := rawVectorData[i];
      var vectorBegin := layerOutline[i];
      var colorType: seq<real>;
      if !IsZero(vectorTip) {
        NormOfNonzero(norm, vectorTip);
        NormOfNonzero(norm, vectorBegin);
        vectorTip := Divide(vectorTip, norm(vectorTip));
        vectorBegin := Divide(vectorBegin, norm(vectorBegin));
        rawVectorData[i] := vectorTip;
        layerOutline[i] := vectorBegin;
        colorType := AtomicDotProduct(vectorTip, ArrowBasis);
      } else {
        colorType := [0.0, 0.0, 0.0];
      }
      node := vectorBegin + vectorTip + colorType;
    }
  }
}
