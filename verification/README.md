# Hand-written 2-D convolution (filter/filter.py), modelled in Dafny

`filter/filter.py` implements the convolution layer of a CNN by hand, with two
routines:

- `conv_2d_single_kernel(input_data, kernel, stride)` convolves one `[c, h, w]` input
  with one `[c, kh, kw]` kernel. It rejects a channel mismatch. It zero-pads the input
  by `(kh - 1) // 2` rows and `(kw - 1) // 2` columns on each side, then allocates an
  output of shape `(h // sh, w // sw)` filled with 0. For every window position
  `(i, j)` in `range(0, h - kh, sh) x range(0, w - kw, sw)` it writes
  `np.sum(window * kernel)` into the output cell `(idx_h, idx_w)`, where `idx_h` and
  `idx_w` count the positions.
- `conv2d(input_data, kernel, stride=1)` turns a scalar stride into a pair. It
  allocates an output of shape `(out_c, h // sh, w // sw)` and fills channel `n` with
  the single-kernel convolution by `kernel[n]`.

The model is in four modules.

- `Tensors` (`tensors.dfy`) defines the input and kernels. They are immutable values:
  `Tensor3` for a `[c, h, w]` tensor and `Tensor4` for a `[oc, c, kh, kw]` bank of
  kernels. Elements are exact `real`s.
- `FilterSpec` (`filter_spec.dfy`) is the specification the routines are proved
  against:
  - the padding rule and the padded buffer (`Padding`, `PaddedAt`, `Padded`);
  - Python's `range` and the visited window positions (`Range`, `VisitCount`);
  - the window multiply-accumulate (`WindowSum`);
  - the value each output cell ends with (`OutputCell`, `BankCell`);
  - the failure a call raises, if any (`SingleKernelError`, `BankError`).
- `Filter` (`filter.dfy`) holds the routines in the code's own imperative form:
  - the padded buffer is an `array3<real>` filled by slice assignment;
  - the single-kernel output is an `array2<real>` filled by the nested loops with the
    counters `idxH`/`idxW`;
  - the bank output is an `array3<real>` filled one channel at a time.
- `FilterProperties` (`filter_properties.dfy`) proves what the code promises and where
  its edges are:
  - how many positions are visited;
  - when the output writes stay in bounds;
  - the layout of the padded buffer;
  - what comes out on particular inputs.

A call can fail in three ways, and the model returns these as `Err` results, checked
in the order the code meets them:

- `ChannelMismatch(c, kc)` is the explicit `ValueError` of line 23.
- `PaddingCopyMismatch` is the broadcasting failure of the slice copy at line 30. When
  a padding is 0, the slice `0:-0` is empty, and numpy only accepts an input axis of
  extent 0 or 1 there. In that case the buffer stays all 0.
- `OutputIndexOutOfRange` is the `IndexError` of line 36. The output has `h // sh`
  rows, but `len(range(0, h - kh, sh))` rows are visited, and for strides larger than
  `kh + 1` that count can be larger.

Kernel extents below 3 therefore fail on any input axis longer than 1. That includes
a 1 x 1 kernel on a 4 x 4 input. The docstring (line 7) calls the padding "SAME",
which suggests that input is legal, but the code raises at line 30. The model follows
the code; see `UnitKernelCopyFails`.

## Model

| member | source | states |
|---|---|---|
| Filter.PadInput | filter/filter.py:27-30 | Fails with PaddingCopyMismatch exactly when a padding is 0 and the matching input axis is longer than 1. Otherwise returns the padded buffer `Padded(x, ph, pw)`: the input shifted by (ph, pw) with 0 elsewhere when both paddings are positive, and all 0 when a padding is 0. |
| Filter.Conv2dSingleKernel | filter/filter.py:4-37 | Fails exactly when `SingleKernelError` is some error, with that error: channel mismatch first, then the padding copy, then an output index past the map. On success: the output is a newly allocated array of shape (h / sh, w / sw), and each cell holds the window sum of its visited position, or 0 if that position is not visited. |
| Filter.AssignChannel | filter/filter.py:63 | `out[n, :, :] = plane`: channel n becomes the plane and every other channel keeps its old value. |
| Filter.StoreKernelOutput | filter/filter.py:62-63 | One loop iteration of conv2d. It returns the bank's error if there is one, and then leaves out unchanged. Otherwise it stores kernel n's single-kernel output in channel n and leaves the other channels unchanged. |
| Filter.Conv2d | filter/filter.py:40-64 | The stride defaults to 1. Fails exactly when the bank is non-empty and its first kernel fails, with that error. On success: the output is a newly allocated array of shape (oc, h / sh, w / sw) under the normalised stride, and channel n is the single-kernel output of kernel n. |
| FilterSpec.Normalize | filter/filter.py:55-59 | Definition: an integer stride s becomes (s, s), and a pair is used unchanged. |
| FilterSpec.WindowSum | filter/filter.py:35-36 | Definition: `np.sum(window * kernel)` for the window at (i, j), the sum over ch < c, a < kh, b < kw of p[ch, i + a, j + b] * k[ch, a, b]. |
| FilterSpec.Padding | filter/filter.py:27-28 | `(k - 1) // 2` is positive exactly when k >= 3, and 2 * pad < k <= 2 * pad + 2. |
| FilterSpec.RangeWithin | filter/filter.py:33-34 | Every element of `range(lo, hi, s)` lies in [lo, hi). |
| FilterSpec.RangeAt | filter/filter.py:33-34 | Element idx of `range(lo, hi, s)` exists exactly when lo + idx * s < hi, and equals lo + idx * s. |
| FilterSpec.VisitedIff | filter/filter.py:33-35 | Position idx along an axis is visited exactly when idx * s < n - k. A visited window then ends inside the first n cells. |
| FilterSpec.KernelsShareError | filter/filter.py:62-63 | All kernels of a bank share one shape, so each kernel fails, or succeeds, exactly as kernel 0 does. |
| FilterProperties.VisitCountClosedForm | filter/filter.py:33-34 | `len(range(0, n - k, s))` is (n - k - 1) / s + 1 when n > k, and 0 otherwise. |
| FilterProperties.UnitStrideVisitCount | filter/filter.py:33-34 | With stride 1, n - k positions are visited (0 when k >= n). |
| FilterProperties.WritesInBounds | filter/filter.py:32-36 | With stride at most k + 1, the visited count is at most n / s, so every write lands inside the output map. |
| FilterProperties.VisitedWindowInside | filter/filter.py:29-35 | Every visited window lies inside the padded buffer. Its offsets also satisfy i * sh + kh < h and j * sw + kw < w. |
| FilterProperties.WellShapedCallSucceeds | filter/filter.py:20-36 | Matching channels, kernel extents >= 3 and strides <= kernel extent + 1 guarantee that the call does not fail. |
| FilterProperties.PaddingFailureIff | filter/filter.py:27-30 | With matching channels, the call fails at the padding copy exactly when a kernel extent below 3 meets an input axis longer than 1. |
| FilterProperties.LargeStrideOverrun | filter/filter.py:32-36 | h = 9, kh = 3, sh = 5 visits 2 rows, but the output has 9 / 5 = 1 row, and the call fails with OutputIndexOutOfRange. |
| FilterProperties.UnitKernelCopyFails | filter/filter.py:27-30 | A 1 x 1 kernel on a 4 x 4 input fails at the padding copy. |
| FilterProperties.PaddedLayout | filter/filter.py:29-30 | The padded buffer has shape (c, h + 2ph, w + 2pw). When both paddings are positive, it holds the input at offset (ph, pw) and 0 on the border. Otherwise it is all 0. |
| FilterProperties.ZeroInputZeroOutput | filter/filter.py:29-36 | An all-zero input gives an all-zero output for every kernel and stride. |
| FilterProperties.OnesExample | filter/filter.py:27-37 | A 3 x 3 kernel of ones over a 4 x 4 input of ones with stride 1 succeeds. Its output is 4.0 at (0, 0), which is the 2 x 2 input corner inside the padded window, and 0 everywhere else. |
| FilterProperties.CentreKernelSamplesInput | filter/filter.py:27-36 | With a 3 x 3 kernel that is 1 at its centre, the output at visited position (i, j) is the input cell (i * sh, j * sw). So the padding centres the kernel on the input cell. |
| FilterProperties.ScalarStrideIsPair | filter/filter.py:55-59 | An integer stride s is treated exactly as the pair (s, s). |

## Left out

- Floating point: elements are exact reals, so float64 rounding and the summation
  order of `np.sum` are not modelled.
- Kernel extents of 0 and strides below 1 are preconditions (`CallShapes`,
  `BankShapes`):
  - a kernel extent of 0 gives padding -1, which the code never meant;
  - a stride of 0 makes `range` and `//` raise;
  - a negative stride makes the output shape negative.
- Exceptions are reduced to the three error kinds above. The message text of line 23
  and the concrete numpy exception types are not modelled.
- Conv2dSingleKernel: the cells written before an `IndexError` are not described,
  because the error result discards the partially filled output just as the exception
  does.
- Conv2d: the order in which channels are filled is only observable on failure. Every
  kernel of a bank has one shape, so a failing bank fails at kernel 0, and the model
  states only that error.
- numpy views and aliasing: the input and the kernels are values, so `kernel[n, :, :]`
  is a copy in the model, and neither routine can modify its arguments.
- `conv2d`'s `isinstance(stride, int)` test is the `Stride` datatype (`Scalar` or
  `Pair`). Other sequence types and non-integer strides are not modelled.
- Parallel execution of the channel loop: the code is sequential.
