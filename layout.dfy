/** Render-ready flat buffers: vertex-buffer padding (`color_matrix_flatten`)
    and the 9-floats-per-node arrow layout
    (`compose_arrow_interleaved_array`). */
module Layout {
  import opened Vectors
  import opened Colors

  /** The repeat factor `apply_vbo_format` uses. */
  const VboRepeat: nat := 24

  /** `np.repeat(m, times, axis=0)`: every row, `times` times in a row. */
  function RepeatRows(m: seq<Vec3>, times: nat): seq<Vec3>
  {
    if m == [] then [] else seq(times, _ => m[0]) + RepeatRows(m[1..], times)
  }

  /** `.flatten()` of an N x 3 array: its rows one after the other. */
  function Flatten(rows: seq<Vec3>): seq<real>
  {
    if rows == [] then [] else rows[0] + Flatten(rows[1..])
  }

  /** `color_matrix_flatten(vector, times)`. */
  function ColorMatrixFlatten(vector: seq<Vec3>, times: nat): seq<real>
  {
    Flatten(RepeatRows(vector, times))
  }

  lemma {:induction false} RepeatRowsAt(m: seq<Vec3>, times: nat, i: nat, k: nat)
    ensures |RepeatRows(m, times)| == times * |m|
    ensures i < |m| && k < times ==> i * times + k < times * |m| && RepeatRows(m, times)[i * times + k] == m[i]
  {
    if m != [] {
      RepeatRowsAt(m[1..], times, if i > 0 then i - 1 else 0, k);
      assert times * |m| == times + times * (|m| - 1);
      if i > 0 && i < |m| && k < times {
        assert i * times + k == times + ((i - 1) * times + k);
      }
    }
  }

  lemma {:induction false} FlattenAt(rows: seq<Vec3>, q: nat, c: nat)
    ensures |Flatten(rows)| == 3 * |rows|
    ensures q < |rows| && c < 3 ==> Flatten(rows)[3 * q + c] == rows[q][c]
  {
    if rows != [] {
      FlattenAt(rows[1..], if q > 0 then q - 1 else 0, c);
    }
  }

  /** The padded buffer of an N x 3 matrix has 3 * times * N values, and value
      (i * times + k) * 3 + c is component c of row i, for every k < times. */
  lemma ColorMatrixFlattenAt(m: seq<Vec3>, times: nat, i: nat, k: nat, c: nat)
    ensures |ColorMatrixFlatten(m, times)| == 3 * times * |m|
    ensures i < |m| && k < times && c < 3 ==>
              (i * times + k) * 3 + c < |ColorMatrixFlatten(m, times)| &&
              ColorMatrixFlatten(m, times)[(i * times + k) * 3 + c] == m[i][c]
  {
    var rows := RepeatRows(m, times);
    RepeatRowsAt(m, times, i, k);
    FlattenAt(rows, i * times + k, c);
    assert 3 * (times * |m|) == 3 * times * |m|;
    assert (i * times + k) * 3 + c == 3 * (i * times + k) + c;
  }

  /** Row i of the colour matrix, read back from its first vertex in a padded
      buffer. */
  function FirstVertex(buffer: seq<real>, times: nat, i: nat): seq<real>
    requires (i * times) * 3 + 3 <= |buffer|
  {
    buffer[(i * times) * 3 .. (i * times) * 3 + 3]
  }

  /** Padding loses nothing: with a positive repeat factor every row can be
      read back from the buffer. */
  lemma PaddingRecoversRows(m: seq<Vec3>, times: nat, i: nat)
    requires times > 0
    requires i < |m|
    ensures (i * times) * 3 + 3 <= |ColorMatrixFlatten(m, times)|
    ensures FirstVertex(ColorMatrixFlatten(m, times), times, i) == m[i]
  {
    var b := ColorMatrixFlatten(m, times);
    ColorMatrixFlattenAt(m, times, i, 0, 0);
    ColorMatrixFlattenAt(m, times, i, 0, 1);
    ColorMatrixFlattenAt(m, times, i, 0, 2);
    var s := FirstVertex(b, times, i);
    assert s[0] == m[i][0] && s[1] == m[i][1] && s[2] == m[i][2];
  }

  // ---------------------------------------------------------------------
  // Arrow layout.

  /** Line 184 divides the begin vertex by its norm whenever the tip is
      nonzero; the model covers the inputs where that norm is not zero. */
  predicate ArrowDefined(data: seq<Vec3>, outline: seq<Vec3>)
  {
    forall i :: 0 <= i < |data| && i < |outline| && !IsZero(data[i]) ==> !IsZero(outline[i])
  }

  /** The nine values emitted for one node: begin, tip, colour. A zero tip
      leaves both vectors as they are and gets colour [0,0,0]; otherwise both
      are normalised and the colour is the tip's projection onto the arrow
      reference set. */
  function ArrowNode(begin: Vec3, tip: Vec3, norm: Vec3 -> real): seq<real>
    requires IsEuclideanNorm(norm)
  {
    if IsZero(tip) then begin + tip + [0.0, 0.0, 0.0]
    else
      var t := Normalize(tip, norm);
      Normalize(begin, norm) + t + AtomicDotProduct(t, ArrowBasis)
  }

  /** The values emitted for the first n nodes. */
  function InterleavePrefix(data: seq<Vec3>, outline: seq<Vec3>, n: nat, norm: Vec3 -> real): seq<real>
    requires IsEuclideanNorm(norm)
    requires n <= |data| && n <= |outline|
  {
    if n == 0 then [] else InterleavePrefix(data, outline, n - 1, norm) + ArrowNode(outline[n - 1], data[n - 1], norm)
  }

  /** The number of nodes `zip(layer_outline, raw_vector_data)` visits. */
  function NodeCount(data: seq<Vec3>, outline: seq<Vec3>): nat
  {
    if |data| <= |outline| then |data| else |outline|
  }

  /** What `compose_arrow_interleaved_array(raw_vector_data, layer_outline)`
      returns. */
  function ArrowInterleaved(data: seq<Vec3>, outline: seq<Vec3>, norm: Vec3 -> real): seq<real>
    requires IsEuclideanNorm(norm)
  {
    InterleavePrefix(data, outline, NodeCount(data, outline), norm)
  }

  /** The layout of one node's nine values. */
  lemma ArrowNodeLayout(begin: Vec3, tip: Vec3, norm: Vec3 -> real)
    requires IsEuclideanNorm(norm)
    ensures |ArrowNode(begin, tip, norm)| == 9
    ensures IsZero(tip) ==>
              ArrowNode(begin, tip, norm)[..3] == begin &&
              ArrowNode(begin, tip, norm)[3..6] == Zero &&
              ArrowNode(begin, tip, norm)[6..] == Zero
    ensures !IsZero(tip) ==>
              var r := ArrowNode(begin, tip, norm);
              var t := r[3..6];
              r[..3] == Normalize(begin, norm) &&
              |t| == 3 && SqNorm(t) == 1.0 && IsUnitMultiple(t, tip) &&
              r[6..] == [t[0] + t[1], -t[0] + t[2], t[1]]
  {
    var r := ArrowNode(begin, tip, norm);
    if IsZero(tip) {
      assert r[..3] == begin;
      assert r[3..6] == tip == Zero;
      assert r[6..] == Zero;
    } else {
      var t := Normalize(tip, norm);
      var c := AtomicDotProduct(t, ArrowBasis);
      assert r == Normalize(begin, norm) + t + c;
      assert r[..3] == Normalize(begin, norm);
      assert r[3..6] == t;
      assert r[6..] == c;
      ArrowColor(t);
    }
  }

  /** The begin and tip a node emits: normalised when the tip is nonzero,
      as they were otherwise. */
  lemma ArrowNodeVectors(begin: Vec3, tip: Vec3, norm: Vec3 -> real)
    requires IsEuclideanNorm(norm)
    ensures |ArrowNode(begin, tip, norm)| == 9
    ensures ArrowNode(begin, tip, norm)[0..3] == if IsZero(tip) then begin else Normalize(begin, norm)
    ensures ArrowNode(begin, tip, norm)[3..6] == if IsZero(tip) then tip else Normalize(tip, norm)
  {
    var b := if IsZero(tip) then begin else Normalize(begin, norm);
    var t := if IsZero(tip) then tip else Normalize(tip, norm);
    var c := if IsZero(tip) then [0.0, 0.0, 0.0] else AtomicDotProduct(t, ArrowBasis);
    assert ArrowNode(begin, tip, norm) == b + t + c;
    assert (b + t + c)[0..3] == b && (b + t + c)[3..6] == t;
  }

  lemma ArrowNodeLength(begin: Vec3, tip: Vec3, norm: Vec3 -> real)
    requires IsEuclideanNorm(norm)
    ensures |ArrowNode(begin, tip, norm)| == 9
  {
  }

  lemma {:induction false} InterleavePrefixLength(data: seq<Vec3>, outline: seq<Vec3>, norm: Vec3 -> real, n: nat)
    requires IsEuclideanNorm(norm)
    requires n <= |data| && n <= |outline|
    ensures |InterleavePrefix(data, outline, n, norm)| == 9 * n
  {
    if n > 0 {
      InterleavePrefixLength(data, outline, norm, n - 1);
      ArrowNodeLength(outline[n - 1], data[n - 1], norm);
    }
  }

  lemma SliceOfConcatLeft<T>(p: seq<T>, q: seq<T>, lo: int, hi: int)
    requires 0 <= lo <= hi <= |p|
    ensures (p + q)[lo..hi] == p[lo..hi]
  {
    assert forall k :: 0 <= k < hi - lo ==> (p + q)[lo..hi][k] == p[lo..hi][k];
  }

  lemma SliceOfConcatRight<T>(p: seq<T>, q: seq<T>)
    ensures (p + q)[|p|..|p| + |q|] == q
  {
    assert forall k :: 0 <= k < |q| ==> (p + q)[|p|..|p| + |q|][k] == q[k];
  }

  lemma SliceOfSlice<T>(s: seq<T>, lo: int, hi: int, a: int, b: int)
    requires 0 <= lo <= hi <= |s|
    requires 0 <= a <= b <= hi - lo
    ensures s[lo..hi][a..b] == s[lo + a..lo + b]
  {
    forall k | 0 <= k < b - a
      ensures s[lo..hi][a..b][k] == s[lo + a..lo + b][k]
    {
      assert s[lo..hi][a..b][k] == s[lo..hi][a + k] == s[lo + a + k];
    }
  }

  /** Node i's nine values start at 9 * i. */
  lemma {:induction false} ArrowInterleavedAt(data: seq<Vec3>, outline: seq<Vec3>, norm: Vec3 -> real, n: nat, i: nat)
    requires IsEuclideanNorm(norm)
    requires i < n <= |data| && n <= |outline|
    ensures |InterleavePrefix(data, outline, n, norm)| == 9 * n
    ensures InterleavePrefix(data, outline, n, norm)[9 * i .. 9 * i + 9] == ArrowNode(outline[i], data[i], norm)
  {
    InterleavePrefixLength(data, outline, norm, n);
    InterleavePrefixLength(data, outline, norm, n - 1);
    ArrowNodeLength(outline[n - 1], data[n - 1], norm);
    var p := InterleavePrefix(data, outline, n - 1, norm);
    var node := ArrowNode(outline[n - 1], data[n - 1], norm);
    assert InterleavePrefix(data, outline, n, norm) == p + node;
    if i < n - 1 {
      ArrowInterleavedAt(data, outline, norm, n - 1, i);
      SliceOfConcatLeft(p, node, 9 * i, 9 * i + 9);
    } else {
      SliceOfConcatRight(p, node);
    }
  }

  /** `compose_arrow_interleaved_array` emits 9 values for each of the
      min(len(outline), len(data)) nodes, in node order. */
  lemma ArrowInterleavedLayout(data: seq<Vec3>, outline: seq<Vec3>, norm: Vec3 -> real, i: nat)
    requires IsEuclideanNorm(norm)
    ensures |ArrowInterleaved(data, outline, norm)| == 9 * NodeCount(data, outline)
    ensures i < NodeCount(data, outline) ==>
              ArrowInterleaved(data, outline, norm)[9 * i .. 9 * i + 9] == ArrowNode(outline[i], data[i], norm)
  {
    InterleavePrefixLength(data, outline, norm, NodeCount(data, outline));
    if i < NodeCount(data, outline) {
      ArrowInterleavedAt(data, outline, norm, NodeCount(data, outline), i);
    }
  }

  // ---------------------------------------------------------------------
  // What the in-place divisions leave behind in the two input arrays.

  /** The tips after the first n nodes were visited: a nonzero tip is
      normalised, every other row is as it was. */
  function NormalizedTips(data: seq<Vec3>, n: nat, norm: Vec3 -> real): seq<Vec3>
    requires IsEuclideanNorm(norm)
  {
    seq(|data|, j requires 0 <= j < |data| =>
      if j < n && !IsZero(data[j]) then Normalize(data[j], norm) else data[j])
  }

  /** The begin vertices after the first n nodes were visited: the begin of a
      node with a nonzero tip is normalised, every other row is as it was. */
  function NormalizedBegins(data: seq<Vec3>, outline: seq<Vec3>, n: nat, norm: Vec3 -> real): seq<Vec3>
    requires IsEuclideanNorm(norm)
  {
    seq(|outline|, j requires 0 <= j < |outline| =>
      if j < n && j < |data| && !IsZero(data[j]) then Normalize(outline[j], norm) else outline[j])
  }

  /** Before any node is visited nothing has changed. */
  lemma NormalizedNone(data: seq<Vec3>, outline: seq<Vec3>, norm: Vec3 -> real)
    requires IsEuclideanNorm(norm)
    ensures NormalizedTips(data, 0, norm) == data
    ensures NormalizedBegins(data, outline, 0, norm) == outline
  {
  }

  /** Visiting node n changes row n of each array and no other row. */
  lemma NormalizedStep(data: seq<Vec3>, outline: seq<Vec3>, n: nat, norm: Vec3 -> real)
    requires IsEuclideanNorm(norm)
    requires n < |data| && n < |outline|
    ensures NormalizedTips(data, n + 1, norm)
         == NormalizedTips(data, n, norm)[n := if IsZero(data[n]) then data[n] else Normalize(data[n], norm)]
    ensures NormalizedBegins(data, outline, n + 1, norm)
         == NormalizedBegins(data, outline, n, norm)[n := if IsZero(data[n]) then outline[n] else Normalize(outline[n], norm)]
  {
  }

  /** The vectors left in the arrays are the ones emitted: node i's begin and
      tip in the interleaved array are rows i of the updated outline and
      data. */
  lemma NormalizedAreEmitted(data: seq<Vec3>, outline: seq<Vec3>, norm: Vec3 -> real, i: nat)
    requires IsEuclideanNorm(norm)
    requires i < NodeCount(data, outline)
    ensures |ArrowInterleaved(data, outline, norm)| == 9 * NodeCount(data, outline)
    ensures ArrowInterleaved(data, outline, norm)[9 * i .. 9 * i + 3]
         == NormalizedBegins(data, outline, NodeCount(data, outline), norm)[i]
    ensures ArrowInterleaved(data, outline, norm)[9 * i + 3 .. 9 * i + 6]
         == NormalizedTips(data, NodeCount(data, outline), norm)[i]
  {
    ArrowInterleavedLayout(data, outline, norm, i);
    var full := ArrowInterleaved(data, outline, norm);
    var node := full[9 * i .. 9 * i + 9];
    SliceOfSlice(full, 9 * i, 9 * i + 9, 0, 3);
    SliceOfSlice(full, 9 * i, 9 * i + 9, 3, 6);
    ArrowNodeVectors(outline[i], data[i], norm);
    var n := NodeCount(data, outline);
    assert NormalizedBegins(data, outline, n, norm)[i] == node[0..3];
    assert NormalizedTips(data, n, norm)[i] == node[3..6];
  }
}
