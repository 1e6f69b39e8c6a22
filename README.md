# ColorPolicy — a verified model of the colour pipeline of VISM

VISM renders simulated magnetisation fields with OpenGL. Before rendering, its
`ColorPolicy` class turns a field — a sequence of *iterations*, each an N x 3
array of node vectors — into vertex and colour buffers. It can do four
things:

- **Smoothing and decimation.** Each column of an iteration is convolved with
  a uniform mean kernel (`np.convolve`, 'same' mode). Only every `av_scale`-th
  row is then kept, and the same stride decimates an optional vector matrix.
- **Normalisation.** Every nonzero node vector becomes a unit vector and every
  zero vector stays [0,0,0]. Each iteration is reshaped to the node grid.
- **Vertex-buffer padding.** Every row is repeated 24 times, and the result
  is flattened.
- **Arrow layout.** For every node the output holds nine values: begin vertex,
  tip, and a colour. The colour is the dot product of the normalised tip with
  the fixed reference set [[1,1,0],[-1,0,1],[0,1,0]], and the arrays are
  normalised in place while the layout is built.

The project has one module per concern:

| module | file | concern |
|---|---|---|
| `Results` | results.dfy | errors (the exceptions numpy or Python raise) and order-preserving gathering |
| `Vectors` | vectors.dfy | 3-vectors, the Euclidean norm, zero-safe normalisation |
| `Kernels` | kernels.dfy | the uniform flat and square kernels |
| `Convolution` | convolution.dfy | `np.convolve(..., 'same')`, its reference full convolution, per-channel application |
| `Averaging` | averaging.dfy | `s[::stride]` and the smoothing-then-decimation result |
| `Normalization` | normalization.dfy | `reshape(xc*yc*zc, 3)` and the whole-iteration normalisation |
| `Colors` | colors.dfy | projection onto reference vectors |
| `Layout` | layout.dfy | padding with repeats and the arrow buffer |
| `Policy` | color_policy.dfy | the `ColorPolicy` class: kernel state, loops, in-place arrays |

The pure parts are datatypes, functions and lemmas. The parts of the source
that update fields, fill buffers, append in loops or divide arrays in place
are methods of the class `Policy.ColorPolicy`. Each method is proved against
the specification function of its module.

How the model encodes some details:

- **The norm.** `np.linalg.norm` becomes a parameter `norm`, with one
  requirement: its value is non-negative and its square is the squared length
  (`Vectors.IsEuclideanNorm`).
- **The worker pool.** A `multiprocessing.Pool` becomes a sequential map that
  keeps the input order and returns the first failure.
- **Copies for workers.** The pool hands each worker a pickled copy of its
  arguments. `Policy.ColorPolicy.Pickled` models that copy as a fresh array.

`ColorPolicy.py` builds only a flat and a square kernel, and its only
sampling is the random `sampling_policy` (left out).

## Model

| member | source | states |
|---|---|---|
| Policy.ColorPolicy.constructor | ColorPolicy.py:7-14 | data structure is 'flattened_array' and the three structure names are kept; both kernels are the size-3 uniform kernels; `kernel_size` ends as None, because `set_kernel_size` returns nothing |
| Policy.ColorPolicy.SetKernelSize | ColorPolicy.py:16-27 | the size is recorded before anything can fail. A positive size gives the k x k kernel of 1/k^2 and the k-entry kernel of 1/k. Size 0 fails with the zero-division error, a negative size with the negative-dimension error, and in both cases the kernels are unchanged; valid kernels stay valid |
| Kernels.FlatKernelIsMean | ColorPolicy.py:26-27 | the flat kernel has k entries, each 1/k, and they add up to 1 |
| Kernels.SquareKernelIsMean | ColorPolicy.py:24-25 | the square kernel is k x k, each entry 1/k^2, and the entries add up to 1 |
| Policy.ColorPolicy.AveragingPolicy | ColorPolicy.py:29-52 | the result is `Averaging.AveragingOf` of the inputs. A positive scale leaves the kernels of that size and `kernel_size` None; any other scale fails with the kernels unchanged and `kernel_size` set to the scale |
| Averaging.AveragingSucceeds | ColorPolicy.py:43-52 | the call succeeds iff the scale is positive and every iteration has at least that many rows; scale 0 fails with the zero-division error and a negative scale with the negative-dimension error; the vectors are returned iff a nonempty vector matrix was given |
| Averaging.AveragingRows | ColorPolicy.py:43-47 | the iteration count is kept; iteration i keeps ceil(n/scale) rows; row j is row j*scale of the smoothed iteration |
| Averaging.AveragingKeepsGeometryAligned | ColorPolicy.py:47-50 | a vector matrix with as many rows as an iteration is decimated to as many rows as that iteration; its row j is source row j*scale |
| Averaging.SubsampleLength | ColorPolicy.py:47-49 | `s[::stride]` has ceil(len(s)/stride) elements |
| Averaging.SubsampleAt | ColorPolicy.py:47-49 | element j of `s[::stride]` is element j*stride of s |
| Policy.ColorPolicy.LinearConvolution | ColorPolicy.py:61-76 | with the kernels the class keeps, the result is the composite convolution of every iteration with the flat kernel, gathered in input order, or the first failure (`Convolution.LinearConvolved`); it succeeds iff no iteration is shorter than the kernel |
| Convolution.LinearConvolvedGathers | ColorPolicy.py:68-76 | the gather succeeds iff every iteration does; it then holds one result per iteration, and result i is the convolution of iteration i |
| Policy.ColorPolicy.CompositeConvolution | ColorPolicy.py:78-91 | filling a zeroed N x 3 buffer column by column gives exactly `Convolution.CompositeConvolved` |
| Convolution.CompositeConvolved | ColorPolicy.py:87-91 | succeeds iff 0 < len(kernel) <= N. An empty matrix or kernel is the empty-array error; a longer kernel is a shape error, because the result no longer fits the column. The shape is kept, and each column is the 'same' convolution of that column alone |
| Convolution.AtomicConvolution | ColorPolicy.py:93-100 | succeeds iff both operands are nonempty, and fails only with the empty-array error; the result's length is that of the longer operand |
| Convolution.SameIsCentredFull | ColorPolicy.py:100 | output i of 'same' mode is output i + (m-1) - m/2 of the full convolution (reference definition) |
| Convolution.UniformKernelIsWindowMean | ColorPolicy.py:100 | with the flat kernel of size k, output i is the mean of the k zero-padded inputs that start k/2 before i |
| Convolution.UniformThree | ColorPolicy.py:100 | with the default size 3, output i is (in[i-1] + in[i] + in[i+1]) / 3, zero beyond the ends |
| Convolution.IdentityKernel | ColorPolicy.py:100 | the one-tap kernel [1] returns the signal unchanged |
| Normalization.AtomicNormalization | ColorPolicy.py:119-129 | succeeds iff the row count equals xc*yc*zc or the product is negative (numpy then infers the row count), and fails otherwise with a shape error. The length is kept; a zero row becomes [0,0,0]; every other row has unit length and is a positive multiple of the original |
| Normalization.ApplyNormalizationGathers | ColorPolicy.py:102-117 | the gather succeeds iff the grid fits every iteration; result i is the normalisation of iteration i |
| Normalization.AtomicNormalizationIdempotent | ColorPolicy.py:126-128 | normalising an iteration a second time changes nothing |
| Vectors.Normalize | ColorPolicy.py:126-127 | a zero vector gives [0,0,0]; any other vector gives a unit vector that is a positive multiple of it |
| Vectors.NormalizeIdempotent | ColorPolicy.py:126-127 | normalising twice gives the same result as normalising once |
| Policy.ColorPolicy.ApplyVboFormat | ColorPolicy.py:131-144 | one padded buffer per iteration, in order, each with repeat factor 24 |
| Layout.ColorMatrixFlattenAt | ColorPolicy.py:146-147 | the padded buffer has 3*times*N values, and value (i*times+k)*3+c is component c of row i for every k < times |
| Layout.PaddingRecoversRows | ColorPolicy.py:146-147 | with a positive repeat factor, the first vertex of each block gives back the original row |
| Colors.AtomicDotProduct | ColorPolicy.py:165-167 | one value per reference vector |
| Colors.StandardBasisIsIdentity | ColorPolicy.py:165-167 | projecting onto the standard basis returns the vector itself |
| Colors.NormalizedStandardColors | ColorPolicy.py:165-167 | projecting a normalised vector onto the standard basis returns it, so a zero vector gives [0,0,0] |
| Colors.ArrowColor | ColorPolicy.py:180-186 | the arrow colour of (x, y, z) is (x+y, -x+z, y) |
| Layout.ArrowNodeLayout | ColorPolicy.py:181-189 | each node emits 9 values. A zero tip gives the begin vertex, the tip and [0,0,0]. Otherwise it gives the normalised begin, then a unit positive multiple t of the tip, then the colour (t0+t1, -t0+t2, t1) |
| Layout.ArrowNodeVectors | ColorPolicy.py:182-189 | a node's begin and tip are normalised when the tip is nonzero, and emitted as they are otherwise |
| Layout.ArrowInterleavedAt | ColorPolicy.py:181-189 | after n nodes the buffer has 9n values, and node i occupies values 9i to 9i+8 |
| Layout.ArrowInterleavedLayout | ColorPolicy.py:178-190 | the buffer has 9 * min(len(outline), len(data)) values, and node i's nine values are at 9i, in node order |
| Layout.NormalizedStep | ColorPolicy.py:182-184 | visiting node n changes row n of each array and no other row |
| Layout.NormalizedAreEmitted | ColorPolicy.py:181-189 | the begin and tip emitted for node i equal rows i of the outline and data left behind by the in-place division |
| Policy.ColorPolicy.ComposeArrowNode | ColorPolicy.py:181-189 | one pass of the loop: emits the node's 9 values and divides row i of both arrays in place exactly when the tip is nonzero; no other row changes |
| Policy.ColorPolicy.ComposeArrowInterleaved | ColorPolicy.py:169-190 | the result is the buffer `Layout.ArrowInterleaved` of the original arrays. Afterwards the data array holds the normalised tips and the outline the normalised begins, for the visited nodes with a nonzero tip; every other row is unchanged |
| Policy.ColorPolicy.Pickled | ColorPolicy.py:155-158 | each task receives a fresh array holding exactly its argument |
| Policy.ColorPolicy.ApplyDotProduct | ColorPolicy.py:152-163 | one arrow buffer per iteration, in order. Buffer i is built from iteration i and the original outline, because no task sees another task's in-place changes |

## Left out

- The process pool (`Pool`, `apply_async`, `get(timeout=…)`), at lines 68-75, 110-116, 137-143 and 154-162: modelled as a sequential, order-preserving map. Concurrency, worker start-up and `TimeoutError` are not modelled.
- `sampling_policy` (lines 54-59): it draws from `np.random.choice`, and randomness is outside the model.
- `getLayerOutline` (lines 2 and 153) is a Cython routine that is not part of this model. `Policy.ColorPolicy.ApplyDotProduct` takes its result as the parameter `layerOutline`.
- `normalize_flatten_dot_product` (lines 149-150): its body is `pass`, so it does nothing to model.
- Floating point: values are exact reals. Rounding, overflow, NaN, infinity and numpy's dtype promotion are not modelled. `np.linalg.norm` is any function meeting the Euclidean-norm requirement, because Dafny has no square root.
- Shapes: every node vector has exactly three components. Arrays of other widths, non-array arguments and integer dtypes are outside the model. For example, `/=` on an integer array raises in numpy.
- Policy.ColorPolicy.ComposeArrowInterleaved: requires a nonzero begin vertex wherever the tip is nonzero (`Layout.ArrowDefined`). At line 184, numpy divides a zero begin vertex by a zero norm and yields NaN, which the real-valued model cannot represent.
- Policy.ColorPolicy.ComposeArrowInterleaved: requires the data array and the outline array to be distinct objects. Aliasing, where one array is passed as both arguments, is not modelled.
- Policy.ColorPolicy.AveragingPolicy: models `if vector_matrix:` (line 48) as "given and nonempty", which is Python's truth value of a list. For a numpy array of more than one element, that test raises `ValueError`, and the model does not capture this.
- Policy.ColorPolicy.AveragingPolicy: `np.array([...])` at line 47 stacks the decimated iterations. The model returns them as a sequence, so it does not capture the error or object array that numpy produces when iterations have different lengths.
- `averaging_kernel`, `data_structure` and `_DATA_STRUCTURE_TYPES` are kept as state and stated in the contracts, but no operation of the class reads them.
- Normalization.AtomicNormalization: the result is a sequence of rows. A negative product makes numpy infer the row count, which is the input's own row count, so no other shape needs modelling.
