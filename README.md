# Verified model of the py-nn 2-D convolution kernels

`conv_func.c` implements the core of a convolution layer as two C functions.
`_forward` computes a stride-1 cross-correlation of an input batch X
(N, H1, W1, C1) with a filter bank K (k1, k2, C1, C2), plus a bias B (C2).
`_backward` takes the upstream gradient dY (N, H2, W2, C2) and computes the
bias gradient dB, the input gradient dX and the filter gradient dW.

All tensors are dense row-major buffers in (batch, row, column, channel)
order, addressed through hand-written offsets. The padding mode is a string:
`"same"` pads by half the kernel, and any other string selects `"valid"`,
which does not pad. Virtual zero padding is implemented by clamping the loop
bounds.

This project models both kernels as Dafny methods over flat `array<int>`
buffers, with the source's loop nests, clamps and offset formulas. Each method
is proved against closed-form sums:

- **Forward:** every element of Y is B[c2] plus the zero-padded correlation.
- **Backward, dB:** every element of dB is the sum of dY over the batch and
  every output position.
- **Backward, dX:** every element of dX is the flipped-kernel scatter sum.
- **Backward, dW:** every element of dW is the batch sum of X·dY products.
- **Bounds:** every read and write is in bounds. Dafny checks each array access.

On top of that the model proves:

- the output-shape rule;
- that the clamped ranges select exactly the taps whose coordinates lie inside
  the tensor;
- that dX is the true adjoint (the derivative of Σ dY·Y with respect to X)
  for every dY and K when the input-gradient offsets equal k - 1 - pad. For
  non-empty extents and any other offsets, a one-hot dY and a one-hot K make
  dX differ from the derivative, whatever the kernel size;
- that the source's offsets therefore give the derivative for every dY and K
  exactly in "valid" mode, or in "same" mode when both kernel extents are odd;
- the gradient identities. For the forward output Y, the sum of dY·Y over the
  whole output equals the sum of K·dW plus the sum of B·dB. It also equals the
  sum of X·dX plus the sum of B·dB. These hold for every X, K, B and dY.
  Y - B is linear in K for fixed X and in X for fixed K, so each identity says
  that the backward result is the gradient of the sum of dY·Y.

Elements are exact integers, so sums are exact; the sums keep the loops'
order of accumulation.

Files:

- `tensor.dfy`: the offset formula `Idx4` and its bound, injectivity and onto
  lemmas. `At4` is a read that yields zero outside the tensor, i.e. the
  virtual padding. `Unit4` is the one-hot tensor.
- `sums.dfy`: the finite sums `Sum(lo, hi, f)` and their algebra (split,
  shift, widen by zeros, exchange of order).
- `shapes.dfy`: the extents, padding-mode dispatch, output shape, backward
  offsets and the clamp `OverlapRange` with its characterisation. `MIN` and
  `MAX` are here too.
- `conv_forward.dfy`: `_forward` and the members that describe its kernel loop
  bounds as written.
- `conv_backward.dfy`: `_backward`, with one method per loop nest.
- `conv_adjoint.dfy`: the adjoint statements, the even-kernel counterexample,
  and `_backward` with adjoint offsets.
- `box_sums.dfy`: sums over three-dimensional index boxes, with the exchange
  of two nested box sums.
- `conv_pairing.dfy`: the gradient identities, as sums of products taken in
  the order of the source's loops.

## Model

| member | source | states |
|---|---|---|
| `Shapes.ParsePadding` | conv_func.c:35-41 | the mode is "same" exactly when the string is "same"; every other string selects "valid" |
| `Shapes.Min` | conv_func.c:7 | the result is at most both arguments and equals one of them |
| `Shapes.Max` | conv_func.c:8 | the result is at least both arguments and equals one of them |
| `Shapes.ForwardGeometry` | conv_func.c:35-41 | "same" keeps H1 and W1 and pads by pad with 2·pad ≤ k < 2·pad + 2, so tap pad is the middle tap of an odd kernel. "valid" has zero offsets, and its last output row's window ends at the last input row (H2 - 1 + k1 - 1 = H1 - 1), likewise for columns |
| `Shapes.BackwardPadding` | conv_func.c:134-140 | in "same" mode the dX and dW offsets are equal and anchor the kernel at its middle tap (2·pad ≤ k < 2·pad + 2). In "valid" mode dW is unpadded and dX is padded by k - 1, a full correlation |
| `Shapes.OutputShape` | conv_func.c:35-41 | "same" keeps H1 and W1, and anchors the kernel at its middle tap (2·pad ≤ k < 2·pad + 2). "valid" has zero offsets, and produces an output row h exactly when the whole kernel window starting at h lies inside the input, likewise for columns |
| `Shapes.FilterPadIsForwardPad` | conv_func.c:134-140 | the dW offsets equal the forward offsets in both modes |
| `Shapes.InputPadIsTransposedPad` | conv_func.c:134-140 | the dX offset equals k - 1 - (forward offset) exactly in "valid" mode, or in "same" mode when that kernel extent is odd |
| `Shapes.OverlapRange` | conv_func.c:163-166 | the bounds [MAX(0, pad - pos), MIN(count, extent + pad - pos)) lie within [0, count). They contain an index t exactly when the coordinate pos + t - pad lies inside an axis of length extent |
| `Tensor.Idx4` | conv_func.c:71 | the offset of an in-range index lies in [0, D0·D1·D2·D3) |
| `Tensor.Idx4Injective` | conv_func.c:75 | two in-range indices with the same offset are equal, so a store to one element leaves every other element unchanged |
| `Tensor.Idx4Onto` | conv_func.c:44-45 | every offset of a D0·D1·D2·D3 buffer is the offset of an in-range index: the converse of the bound of `Idx4` |
| `ConvForward.ClampedWindowIsCorrelation` | conv_func.c:65-74 | the sum over the two-sided clamped kernel window equals the full zero-padded correlation over c1 < C1, i < k1, j < k2 |
| `ConvForward.ForwardWindow` | conv_func.c:65-74 | the accumulated sum for output (n, h, w, c2) is the zero-padded correlation of X and K at that position. Every read of X and K is in bounds |
| `ConvForward.Forward` | conv_func.c:11-87 | Y is fresh and has N·H2·W2·C2 elements, with the output shape of the mode. Every Y[n, h, w, c2] equals B[c2] plus the zero-padded correlation. X, K and B are unchanged |
| `ConvForward.SourceTapRange` | conv_func.c:65-70 | the kernel loops as written exclude exactly the taps whose coordinate is below 0, and nothing at the upper edge |
| `ConvForward.SourceTapRangeAgrees` | conv_func.c:65-70 | at every output row, the loops as written equal the two-sided clamp exactly when the mode is "valid", k1 ≤ 2 or H1 = 0; likewise for columns |
| `ConvForward.SourceReadsPastX` | conv_func.c:69-71 | in "same" mode with k1 ≥ 3, the loops as written visit tap (k1/2 + 1, k2/2) for output (N-1, H1-1, 0, 0). That read is at input row H1, whose offset is N·H1·W1·C1, one past the end of X |
| `ConvForward.SourceOverrunAliases` | conv_func.c:71 | a read at row H1 of item n has the offset of row 0 of item n + 1, and a read at column W1 has the offset of column 0 of the next row |
| `ConvBackward.AccumulateBias` | conv_func.c:151-156 | the running dB sum grows by exactly the sum of dY[n, h2, w2, c2] over all h2 and w2 |
| `ConvBackward.ScatterInputGrad` | conv_func.c:163-172 | for each element of batch item n and channel c1, dX grows by dY at the shifted position (zero outside dY) times the flipped tap K[k1-i-1, k2-j-1, c1, c2]. Every other dX element is unchanged, and every dY, K and dX access is in bounds |
| `ConvBackward.ClampedFilterIsFull` | conv_func.c:175-184 | the sum over the clamped h2 and w2 ranges equals the sum over all of [0, H2) × [0, W2) with X read as zero outside its bounds |
| `ConvBackward.FilterWindowSum` | conv_func.c:175-184 | dW_sum is batch item n's share of dW[i, j, c1, c2], the sum of X[n, h2+i-p, w2+j-q, c1]·dY[n, h2, w2, c2]. Every read is in bounds |
| `ConvBackward.BackwardItem` | conv_func.c:159-188 | the c1, i, j loops add batch item n's contribution of output channel c2 to every dX and dW element, and nothing else |
| `ConvBackward.BackwardChannel` | conv_func.c:148-191 | returns dB[c2] as the full sum of dY over channel c2, and completes channel c2 of dX and dW |
| `ConvBackward.BackwardLoops` | conv_func.c:121-191 | dX and dW start at zero. At the end every dB[c2], dX[n, h1, w1, c1] and dW[i, j, c1, c2] equals its closed-form gradient sum for the given offsets |
| `ConvBackward.Backward` | conv_func.c:89-204 | the three gradients as above, with the offsets the mode selects. X, K and dY are unchanged |
| `ConvAdjoint.InputGradIsAdjoint` | conv_func.c:163-170 | with input-gradient offsets k - 1 - pad, the scatter sum for dX equals the derivative of Σ dY·Y with respect to X[n, r, c, c1] |
| `ConvAdjoint.BackwardInputIsAdjoint` | conv_func.c:134-138 | with the source's offsets, dX is that derivative in "valid" mode for any kernel, and in "same" mode for odd kernels |
| `ConvAdjoint.EvenKernelSameIsNotAdjoint` | conv_func.c:135 | an input with X of shape (1, 2, 1, 1), K = [1, 0] and dY = [1, 0] in "same" mode: the source's dX[0, 0, 0, 0] is 1 while the derivative is 0 |
| `ConvAdjoint.OtherOffsetsAreNotAdjoint` | conv_func.c:163-170 | for non-empty extents, forward offsets inside the kernel and input-gradient offsets other than k - 1 - pad (in either axis), a dY that is 1 only at (0, 0, 0, 0) and a K whose only nonzero tap is (pad_x, pad_y, 0, 0) give dX[0, 0, 0, 0] = 0, while the derivative there is 1 |
| `ConvAdjoint.BackwardInputAdjointExactly` | conv_func.c:134-170 | for non-empty extents and kernels, the source's dX equals the derivative for every dY, K and index if and only if the mode is "valid" or both kernel extents are odd |
| `ConvAdjoint.AdjointPadding` | conv_func.c:134-140 | the corrected offsets: k - 1 - pad for dX, with pad the forward offset for any input extents, and the source's offsets for dW |
| `ConvAdjoint.SourcePaddingIsAdjointPadding` | conv_func.c:134-140 | the source's offsets equal the corrected ones exactly in "valid" mode, or when both kernel extents are odd |
| `ConvPairing.CorrelationByInput` | conv_func.c:68-74 | the correlation at (n, h, w, c2) equals the sum, over every input position (c1, r, c) of batch item n, of X[n, r, c, c1] times the tap K[r - h + px, c - w + py, c1, c2] that reaches it (zero outside K) |
| `ConvPairing.OutputPairingSplits` | conv_func.c:58-75 | if Y holds B[c2] plus the correlation at every position, the sum of dY·Y splits into the sum of dY·(Y - B) plus the sum of dY·B, with B broadcast along n, h and w |
| `ConvPairing.FilterGradIsGradient` | conv_func.c:174-185 | for every X, K and dY, the sum of dY·(Y - B) over the output equals the sum of K·dW over the filter bank, with dW at the forward offsets |
| `ConvPairing.BiasGradIsGradient` | conv_func.c:148-156 | the sum of dY·B over the output, with B broadcast along n, h and w, equals the sum of B·dB |
| `ConvPairing.InputGradIsGradient` | conv_func.c:158-172 | for every X, K and dY, the sum of dY·(Y - B) over the output equals the sum of X·dX over the input, with dX the derivative that `AdjointBackward` returns |
| `ConvPairing.FilterAndBiasGradients` | conv_func.c:89-204 | for an output Y that holds B[c2] plus the correlation everywhere, the sum of dY·Y is the sum of K·dW plus the sum of B·dB |
| `ConvPairing.InputAndBiasGradients` | conv_func.c:89-204 | for the same Y, the sum of dY·Y is the sum of X·dX plus the sum of B·dB |
| `ConvAdjoint.AdjointBackward` | conv_func.c:89-204 | the backward loops with the corrected offsets give the true derivative dX for every kernel size, with the same dW and dB as the source |

## Left out

- The Python and NumPy C-API glue is left out, because these are foreign calls and reference counting. This covers argument parsing, array conversion, allocation failure, reference counting, result tuple packing, the method table and module initialisation.
- IEEE-754 doubles are left out. Elements are exact integers, so rounding is not modelled. The finite-difference gradient check is a floating-point test. The exact adjoint lemmas and the gradient identities of `conv_pairing.dfy` take its place.
- The C offsets are 32-bit `int` products. Their overflow for tensors of 2^31 elements or more is not modelled: offsets are unbounded integers.
- ConvForward.Forward: requires `OutputDefined`, because in "valid" mode a kernel larger than the input by two or more gives a negative output extent. The source then asks NumPy for an array with a negative dimension.
- ConvForward.Forward: uses the two-sided kernel clamp, because the upper edge as written reads outside X (see Findings). `SourceTapRangeAgrees` shows that both run the same loops whenever the source stays in bounds.
- ConvForward.Forward: proves that every element of Y holds B[c2] plus the correlation when the method returns. It does not prove that each element is stored exactly once.
- ConvBackward.Backward: requires dY's buffer to hold N·H2·W2·C2 elements. The source takes N and C2 from X and K, and shapes that disagree with them are not modelled.
- nn/_template.py and setup.py are not part of this model. They are layer base classes and build configuration.
- The source is single-threaded, so there is no parallelism to model.

## Findings

| source | as written | input that shows it | evidently intended | confidence | as-written member | corrected member |
|---|---|---|---|---|---|---|
| conv_func.c:69-70 | the kernel loops `i < k1` and `j < k2` have no upper clamp | N = H1 = W1 = C1 = C2 = 1, k1 = 3, k2 = 1, padding "same": output (0, 0, 0, 0) uses tap i = 2, which reads X_data[1] of a one-element X | upper bounds MIN(k1, H1 + pad_x - h) and MIN(k2, W1 + pad_y - w), the mirror of the lower clamp | not executed | `ConvForward.SourceReadsPastX` | `ConvForward.ForwardWindow` |
| conv_func.c:135 | "same" mode uses the forward offset k/2 for dX | X of shape (1, 2, 1, 1), K = [1, 0] of shape (2, 1, 1, 1), dY = [1, 0], padding "same": dX[0, 0, 0, 0] is 1, but the derivative of Σ dY·Y is 0 | dX offsets k - 1 - k/2, which equal k/2 for odd kernels | not executed | `ConvAdjoint.EvenKernelSameIsNotAdjoint` | `ConvAdjoint.AdjointBackward` |
