/** The uniform mean-filter kernels `set_kernel_size` builds. */
module Kernels {
  import opened Results

  /** The sum of a sequence of reals. */
  function Sum(s: seq<real>): real
  {
    if s == [] then 0.0 else Sum(s[..|s| - 1]) + s[|s| - 1]
  }

  /** The sum of every entry of a matrix. */
  function SumAll(m: seq<seq<real>>): real
  {
    if m == [] then 0.0 else SumAll(m[..|m| - 1]) + Sum(m[|m| - 1])
  }

  /** `flat_av_kernel`: `np.ravel(np.ones((k, 1)) * (1 / k))`. */
  function UniformFlat(k: nat): seq<real>
    requires k > 0
  {
    seq(k, _ => 1.0 / (k as real))
  }

  /** `averaging_kernel`: `np.ones((k, k)) * (1 / k**2)`. */
  function UniformSquare(k: nat): seq<seq<real>>
    requires k > 0
  {
    seq(k, _ => seq(k, _ => 1.0 / ((k * k) as real)))
  }

  /** What `set_kernel_size` raises for a size that is not positive: `1 / 0**2`
      divides by zero, `np.ones` refuses a negative dimension. */
  function KernelError(k: int): Error
    requires k <= 0
  {
    if k == 0 then ZeroDivision else NegativeDimension
  }

  /** Scaling by 1/d is dividing by d. */
  lemma ScaleByReciprocal(x: real, d: real)
    requires d != 0.0
    ensures (1.0 / d) * x == x / d
  {
  }

  /** d entries of d^-2 in each of d rows make one. */
  lemma ReciprocalSquareTotal(d: real)
    requires d > 0.0
    ensures d * (d * (1.0 / (d * d))) == 1.0
  {
    var q := d * d;
    assert q > 0.0;
    assert d * (d * (1.0 / q)) == q * (1.0 / q);
  }

  lemma {:induction false} SumOfConstant(s: seq<real>, c: real)
    requires forall i :: 0 <= i < |s| ==> s[i] == c
    ensures Sum(s) == |s| as real * c
  {
    if s != [] {
      SumOfConstant(s[..|s| - 1], c);
    }
  }

  lemma {:induction false} SumAllOfConstantRows(m: seq<seq<real>>, t: real)
    requires forall i :: 0 <= i < |m| ==> Sum(m[i]) == t
    ensures SumAll(m) == |m| as real * t
  {
    if m != [] {
      SumAllOfConstantRows(m[..|m| - 1], t);
    }
  }

  /** The flat kernel has k entries of 1/k, which add up to one. */
  lemma FlatKernelIsMean(k: nat)
    requires k > 0
    ensures |UniformFlat(k)| == k
    ensures forall i :: 0 <= i < k ==> UniformFlat(k)[i] == 1.0 / (k as real)
    ensures Sum(UniformFlat(k)) == 1.0
  {
    SumOfConstant(UniformFlat(k), 1.0 / (k as real));
  }

  /** The square kernel is k x k with entries 1/k^2, which add up to one. */
  lemma SquareKernelIsMean(k: nat)
    requires k > 0
    ensures |UniformSquare(k)| == k
    ensures forall i :: 0 <= i < k ==> |UniformSquare(k)[i]| == k
    ensures forall i, j :: 0 <= i < k && 0 <= j < k ==> UniformSquare(k)[i][j] == 1.0 / ((k * k) as real)
    ensures SumAll(UniformSquare(k)) == 1.0
  {
    var m := UniformSquare(k);
    var kr := k as real;
    var e := 1.0 / ((k * k) as real);
    assert ((k * k) as real) == kr * kr;
    forall i | 0 <= i < k
      ensures Sum(m[i]) == kr * e
    {
      SumOfConstant(m[i], e);
    }
    SumAllOfConstantRows(m, kr * e);
    ReciprocalSquareTotal(kr);
  }
}
