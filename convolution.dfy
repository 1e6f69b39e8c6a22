/** The row-wise smoothing engine: numpy's `np.convolve(a, v, 'same')`
    (`atomic_convolution`), its application to each channel of an N x 3
    iteration (`composite_convolution`) and the gather over iterations
    (`linear_convolution`). */
module Convolution {
  import opened Results
  import opened Vectors
  import opened Kernels

  /** The signal extended with zeros on both sides. */
  function Tap(a: seq<real>, t: int): real
  {
    if 0 <= t < |a| then a[t] else 0.0
  }

  function Reverse(v: seq<real>): seq<real>
  {
    seq(|v|, k requires 0 <= k < |v| => v[|v| - 1 - k])
  }

  /** numpy's correlation inner loop: the sum over k < n of
      Tap(a, start + k) * w[k]. */
  function Correlate(a: seq<real>, w: seq<real>, start: int, n: nat): real
    requires n <= |w|
  {
    if n == 0 then 0.0 else Correlate(a, w, start, n - 1) + Tap(a, start + n - 1) * w[n - 1]
  }

  /** Output i of 'same' mode for a signal `a` and a kernel `v` no longer than
      it: numpy correlates `a` with the reversed kernel, starting |v|/2 to the
      left of i. */
  function SameAt(a: seq<real>, v: seq<real>, i: int): real
  {
    Correlate(a, Reverse(v), i - |v| / 2, |v|)
  }

  /** `atomic_convolution(vecA, vecB)`, that is `np.convolve(vecA, vecB, 'same')`:
      the longer operand is the signal, an empty operand is refused, and the
      result is as long as the longer operand. */
  function AtomicConvolution(vecA: seq<real>, vecB: seq<real>): (r: Result<seq<real>>)
    ensures r.Ok? <==> |vecA| > 0 && |vecB| > 0
    ensures r.Err? ==> r.error == EmptyArray
    ensures r.Ok? ==> |r.value| == (if |vecA| >= |vecB| then |vecA| else |vecB|)
  {
    var a := if |vecB| > |vecA| then vecB else vecA;
    var v := if |vecB| > |vecA| then vecA else vecB;
    if |a| == 0 || |v| == 0 then Err(EmptyArray)
    else Ok(seq(|a|, i requires 0 <= i < |a| => SameAt(a, v, i)))
  }

  // ---------------------------------------------------------------------
  // Reference definitions: the textbook full convolution and a window mean.

  /** The sum over j < n of v[j] * a[t - j], with a zero outside its range. */
  function FullSum(a: seq<real>, v: seq<real>, t: int, n: nat): real
    requires n <= |v|
  {
    if n == 0 then 0.0 else FullSum(a, v, t, n - 1) + v[n - 1] * Tap(a, t - (n - 1))
  }

  /** The full discrete convolution, of length |a| + |v| - 1. */
  function FullConvolution(a: seq<real>, v: seq<real>): seq<real>
    requires |a| > 0 && |v| > 0
  {
    seq(|a| + |v| - 1, t => FullSum(a, v, t, |v|))
  }

  /** The sum of the n padded signal values from `start` on. */
  function WindowSum(a: seq<real>, start: int, n: nat): real
  {
    if n == 0 then 0.0 else WindowSum(a, start, n - 1) + Tap(a, start + n - 1)
  }

  lemma {:induction false} CorrelateReversed(a: seq<real>, v: seq<real>, s: int, m: nat)
    requires m <= |v|
    ensures Correlate(a, Reverse(v), s, m)
         == FullSum(a, v, s + |v| - 1, |v|) - FullSum(a, v, s + |v| - 1, |v| - m)
  {
    if m > 0 {
      CorrelateReversed(a, v, s, m - 1);
      var L := |v|;
      assert Reverse(v)[m - 1] == v[L - m];
      assert FullSum(a, v, s + L - 1, L - m + 1)
          == FullSum(a, v, s + L - 1, L - m) + v[L - m] * Tap(a, s + m - 1);
    }
  }

  /** 'same' mode is the centred slice of the full convolution: output i is
      full output i + (|v| - 1) - |v|/2. */
  lemma SameIsCentredFull(vecA: seq<real>, vecB: seq<real>, i: nat)
    requires 0 < |vecB| <= |vecA|
    requires i < |vecA|
    ensures AtomicConvolution(vecA, vecB).Ok?
    ensures AtomicConvolution(vecA, vecB).value[i]
         == FullConvolution(vecA, vecB)[i + (|vecB| - 1) - |vecB| / 2]
  {
    var m := |vecB|;
    CorrelateReversed(vecA, vecB, i - m / 2, m);
    assert AtomicConvolution(vecA, vecB).value[i] == SameAt(vecA, vecB, i);
    assert i - m / 2 + m - 1 == i + (m - 1) - m / 2;
  }

  lemma {:induction false} CorrelateConstant(a: seq<real>, w: seq<real>, s: int, n: nat, c: real)
    requires n <= |w|
    requires forall k :: 0 <= k < |w| ==> w[k] == c
    ensures Correlate(a, w, s, n) == c * WindowSum(a, s, n)
  {
    if n > 0 {
      CorrelateConstant(a, w, s, n - 1, c);
    }
  }

  /** With the flat mean kernel of size k, output i is the mean of the k
      padded values starting k/2 to the left of i. */
  lemma UniformKernelIsWindowMean(a: seq<real>, k: nat, i: nat)
    requires 0 < k <= |a|
    requires i < |a|
    ensures AtomicConvolution(a, UniformFlat(k)).Ok?
    ensures AtomicConvolution(a, UniformFlat(k)).value[i] == WindowSum(a, i - k / 2, k) / (k as real)
  {
    var v := UniformFlat(k);
    var c := 1.0 / (k as real);
    var w := Reverse(v);
    assert |v| == k && |w| == k;
    assert forall j :: 0 <= j < k ==> w[j] == c by {
      forall j | 0 <= j < k
        ensures w[j] == c
      {
        assert w[j] == v[k - 1 - j];
      }
    }
    CorrelateConstant(a, w, i - k / 2, k, c);
    var window := WindowSum(a, i - k / 2, k);
    assert AtomicConvolution(a, v).value[i] == SameAt(a, v, i) == Correlate(a, w, i - k / 2, k);
    ScaleByReciprocal(window, k as real);
  }

  /** For the default kernel of size 3: out[i] = (in[i-1] + in[i] + in[i+1]) / 3,
      with zeros beyond both ends. */
  lemma UniformThree(a: seq<real>, i: nat)
    requires 3 <= |a|
    requires i < |a|
    ensures AtomicConvolution(a, UniformFlat(3)).Ok?
    ensures AtomicConvolution(a, UniformFlat(3)).value[i] == (Tap(a, i - 1) + Tap(a, i) + Tap(a, i + 1)) / 3.0
  {
    UniformKernelIsWindowMean(a, 3, i);
    assert WindowSum(a, i - 1, 1) == Tap(a, i - 1);
    assert WindowSum(a, i - 1, 2) == Tap(a, i - 1) + Tap(a, i);
    assert WindowSum(a, i - 1, 3) == Tap(a, i - 1) + Tap(a, i) + Tap(a, i + 1);
  }

  /** The one-tap kernel [1] leaves the signal unchanged. */
  lemma IdentityKernel(a: seq<real>)
    requires |a| > 0
    ensures AtomicConvolution(a, [1.0]) == Ok(a)
  {
    var r := AtomicConvolution(a, [1.0]);
    assert Reverse([1.0]) == [1.0];
    forall i | 0 <= i < |a|
      ensures r.value[i] == a[i]
    {
      assert r.value[i] == SameAt(a, [1.0], i) == Correlate(a, [1.0], i, 1);
      assert Correlate(a, [1.0], i, 1) == Correlate(a, [1.0], i, 0) + Tap(a, i) * 1.0;
    }
    assert r.value == a;
  }

  // ---------------------------------------------------------------------
  // Per-channel application.

  /** `composite_matrix[:, c]`. */
  function Column(m: seq<Vec3>, c: nat): seq<real>
    requires c < 3
  {
    seq(|m|, j requires 0 <= j < |m| => m[j][c])
  }

  /** The N x 3 matrix whose column c is column c of `m` smoothed alone. */
  function Smoothed(m: seq<Vec3>, kernel: seq<real>): seq<Vec3>
    requires 0 < |kernel| <= |m|
  {
    seq(|m|, j requires 0 <= j < |m| =>
      [SameAt(Column(m, 0), kernel, j), SameAt(Column(m, 1), kernel, j), SameAt(Column(m, 2), kernel, j)])
  }

  /** What `composite_convolution(m, kernel)` returns. It fails when a column
      is empty (np.convolve) or when the kernel is longer than the column, whose
      'same' result would then not fit back into it. Otherwise the shape is
      kept and every channel is the convolution of that channel alone. */
  function CompositeConvolved(m: seq<Vec3>, kernel: seq<real>): (r: Result<seq<Vec3>>)
    ensures r.Ok? <==> 0 < |kernel| <= |m|
    ensures r.Err? ==> r.error == (if |m| == 0 || |kernel| == 0 then EmptyArray else ShapeMismatch)
    ensures r.Ok? ==> |r.value| == |m|
    ensures r.Ok? ==> forall c :: 0 <= c < 3 ==> AtomicConvolution(Column(m, c), kernel) == Ok(Column(r.value, c))
  {
    if |m| == 0 || |kernel| == 0 then Err(EmptyArray)
    else if |kernel| > |m| then Err(ShapeMismatch)
    else
      var s := Smoothed(m, kernel);
      assert forall c :: 0 <= c < 3 ==> Column(s, c) == seq(|m|, j requires 0 <= j < |m| => SameAt(Column(m, c), kernel, j));
      Ok(s)
  }

  /** What `linear_convolution` gathers: one composite convolution per
      iteration, in order; the first failure fails the whole call. */
  function LinearConvolved(matrix: seq<seq<Vec3>>, kernel: seq<real>): Result<seq<seq<Vec3>>>
  {
    if matrix == [] then Ok([])
    else
      match CompositeConvolved(matrix[0], kernel)
      case Err(e) => Err(e)
      case Ok(h) => Prepend([h], LinearConvolved(matrix[1..], kernel))
  }

  /** The gather succeeds exactly when every iteration does, and it then holds
      one result per iteration, in input order. */
  lemma {:induction false} LinearConvolvedGathers(matrix: seq<seq<Vec3>>, kernel: seq<real>)
    ensures LinearConvolved(matrix, kernel).Ok?
        <==> forall i :: 0 <= i < |matrix| ==> CompositeConvolved(matrix[i], kernel).Ok?
    ensures LinearConvolved(matrix, kernel).Ok? ==>
              |LinearConvolved(matrix, kernel).value| == |matrix| &&
              forall i :: 0 <= i < |matrix| ==>
                LinearConvolved(matrix, kernel).value[i] == CompositeConvolved(matrix[i], kernel).value
  {
    if matrix != [] {
      var rest := matrix[1..];
      LinearConvolvedGathers(rest, kernel);
      assert forall i :: 1 <= i < |matrix| ==> rest[i - 1] == matrix[i];
      var head := CompositeConvolved(matrix[0], kernel);
      if head.Ok? {
        var tail := LinearConvolved(rest, kernel);
        assert LinearConvolved(matrix, kernel) == Prepend([head.value], tail);
        if tail.Ok? {
          forall i | 0 <= i < |matrix|
            ensures LinearConvolved(matrix, kernel).value[i] == CompositeConvolved(matrix[i], kernel).value
          {
            if i > 0 {
              assert ([head.value] + tail.value)[i] == tail.value[i - 1];
            }
          }
        }
      }
    }
  }
}
