/** The specification that the two convolution routines of filter/filter.py are proved
    against: the padding rule, the enumeration of window positions, the window
    multiply-accumulate, the value left in every output cell and the failures. */
module FilterSpec {
  import opened Tensors

  /** The ways a call can fail. Beyond the explicit channel check these are the
      numpy failures the code runs into. */
  datatype FilterError =
    | ChannelMismatch(inputChannels: nat, kernelChannels: nat)
      // the zero-padded interior slice has a shape the input cannot be broadcast to
    | PaddingCopyMismatch
      // a sequential output index reaches past the allocated output map
    | OutputIndexOutOfRange

  /** The stride argument of conv2d: one integer for both axes, or a (height, width) pair. */
  datatype Stride = Scalar(s: int) | Pair(sh: int, sw: int)

  /** The (stride_h, stride_w) pair a stride argument stands for. */
  function Normalize(stride: Stride): (int, int)
  {
    match stride
    case Scalar(s) => (s, s)
    case Pair(sh, sw) => (sh, sw)
  }

  /** Zero padding added on each side of an axis for a kernel extent kDim: (kDim - 1) // 2. */
  function Padding(kDim: nat): (pad: nat)
    requires kDim >= 1
    ensures pad > 0 <==> kDim >= 3
    ensures 2 * pad < kDim && kDim <= 2 * pad + 2
  {
    (kDim - 1) / 2
  }

  /** Whether copying an input axis of extent n into the slice pad:-pad of the
      padded axis succeeds. For pad > 0 the slice has exactly n cells; for pad == 0
      it is empty, and numpy only broadcasts an axis of extent 0 or 1 onto it. */
  predicate CopyFits(n: nat, pad: nat) {
    pad > 0 || n <= 1
  }

  /** Cell [ch, r, col] of the padded buffer after the copy: the input shifted by
      (ph, pw) when both paddings are positive, 0 everywhere else. When a padding is
      0 the interior slice is empty and nothing is copied. */
  ghost function PaddedAt(x: Tensor3, ph: nat, pw: nat, ch: nat, r: nat, col: nat): real
    requires x.Valid() && ch < x.c
  {
    if ph > 0 && pw > 0 && ph <= r < ph + x.h && pw <= col < pw + x.w
    then x.data[ch][r - ph][col - pw]
    else 0.0
  }

  /** The padded buffer, of shape (c, h + 2*ph, w + 2*pw), whose cells are given by
      PaddedAt (the lemma PaddedLayout spells the layout out). */
  ghost function Padded(x: Tensor3, ph: nat, pw: nat): (p: Tensor3)
    requires x.Valid()
    ensures p.Valid() && p.c == x.c && p.h == x.h + 2 * ph && p.w == x.w + 2 * pw
  {
    Tensor3(x.c, x.h + 2 * ph, x.w + 2 * pw,
      seq(x.c, ch requires 0 <= ch < x.c =>
        seq(x.h + 2 * ph, r requires 0 <= r =>
          seq(x.w + 2 * pw, col requires 0 <= col => PaddedAt(x, ph, pw, ch, r, col)))))
  }

  /** Python's range(lo, hi, step) for a positive step, as a sequence. */
  function Range(lo: int, hi: int, step: nat): seq<int>
    requires step >= 1
    decreases hi - lo
  {
    if lo >= hi then [] else [lo] + Range(lo + step, hi, step)
  }

  /** len(range(0, n - k, s)): how many window positions the loop visits along an
      axis of extent n with kernel extent k and stride s. */
  function VisitCount(n: nat, k: nat, s: nat): nat
    requires s >= 1
  {
    |Range(0, n - k, s)|
  }

  /** Every element of range(lo, hi, s) lies in [lo, hi). */
  lemma {:induction false} RangeWithin(lo: int, hi: int, s: nat, idx: nat)
    requires s >= 1 && idx < |Range(lo, hi, s)|
    ensures lo <= Range(lo, hi, s)[idx] < hi
    decreases hi - lo
  {
    if idx > 0 {
      RangeWithin(lo + s, hi, s, idx - 1);
    }
  }

  /** Element idx of range(lo, hi, s) exists exactly when lo + idx * s < hi, and is lo + idx * s. */
  lemma {:induction false} RangeAt(lo: int, hi: int, s: nat, idx: nat)
    requires s >= 1
    ensures idx < |Range(lo, hi, s)| <==> lo + idx * s < hi
    ensures idx < |Range(lo, hi, s)| ==> Range(lo, hi, s)[idx] == lo + idx * s
    decreases hi - lo
  {
    if lo >= hi {
      assert idx * s >= 0;
    } else if idx > 0 {
      RangeAt(lo + s, hi, s, idx - 1);
      assert (idx - 1) * s == idx * s - s;
    }
  }

  /** Arithmetic step for the loop invariants i == idxH * sh and j == idxW * sw. */
  lemma NextMultiple(idx: nat, s: nat)
    ensures (idx + 1) * s == idx * s + s
  {
  }

  /** Position number idx is visited exactly when idx * s lies below n - k, and
      every visited window lies inside the first n cells of the axis. */
  lemma VisitedIff(n: nat, k: nat, s: nat, idx: nat)
    requires s >= 1
    ensures idx < VisitCount(n, k, s) <==> idx * s < n - k
    ensures idx < VisitCount(n, k, s) ==> idx * s + k < n
  {
    RangeAt(0, n - k, s, idx);
  }

  /** Windows of kernel k fit inside the padded tensor p at offset (i, j). */
  ghost predicate WindowFits(p: Tensor3, k: Tensor3, i: nat, j: nat) {
    p.Valid() && k.Valid() && k.c == p.c && i + k.h <= p.h && j + k.w <= p.w
  }

  /** np.sum(window * kernel) for the window of p at (i, j): the sum over every
      channel ch < c, row a < kh and column b < kw of p[ch, i+a, j+b] * k[ch, a, b]. */
  function WindowSum(p: Tensor3, k: Tensor3, i: nat, j: nat): real
    requires WindowFits(p, k, i, j)
  {
    ChannelSum(p, k, i, j, k.c)
  }

  /** The window sum restricted to the first m channels. */
  function ChannelSum(p: Tensor3, k: Tensor3, i: nat, j: nat, m: nat): real
    requires WindowFits(p, k, i, j) && m <= k.c
  {
    if m == 0 then 0.0 else ChannelSum(p, k, i, j, m - 1) + RowSum(p, k, i, j, m - 1, k.h)
  }

  /** The window sum over channel ch restricted to the first m kernel rows. */
  function RowSum(p: Tensor3, k: Tensor3, i: nat, j: nat, ch: nat, m: nat): real
    requires WindowFits(p, k, i, j) && ch < k.c && m <= k.h
  {
    if m == 0 then 0.0 else RowSum(p, k, i, j, ch, m - 1) + ColSum(p, k, i, j, ch, m - 1, k.w)
  }

  /** The window sum over channel ch and kernel row a restricted to the first m kernel columns. */
  function ColSum(p: Tensor3, k: Tensor3, i: nat, j: nat, ch: nat, a: nat, m: nat): real
    requires WindowFits(p, k, i, j) && ch < k.c && a < k.h && m <= k.w
  {
    if m == 0 then 0.0
    else ColSum(p, k, i, j, ch, a, m - 1) + p.data[ch][i + a][j + m - 1] * k.data[ch][a][m - 1]
  }

  /** Shapes every call is made with: well-formed tensors, a kernel of positive
      extent and positive strides. */
  ghost predicate CallShapes(x: Tensor3, k: Tensor3, sh: int, sw: int) {
    x.Valid() && k.Valid() && k.h >= 1 && k.w >= 1 && sh >= 1 && sw >= 1
  }

  /** The multiply-accumulate of the window at visited position (idxH, idxW), that is
      at row idxH * sh and column idxW * sw of the padded input. */
  ghost function WindowAt(x: Tensor3, k: Tensor3, sh: int, sw: int, idxH: nat, idxW: nat): real
    requires CallShapes(x, k, sh, sw) && x.c == k.c
    requires idxH < VisitCount(x.h, k.h, sh) && idxW < VisitCount(x.w, k.w, sw)
  {
    VisitedIff(x.h, k.h, sh, idxH);
    VisitedIff(x.w, k.w, sw, idxW);
    WindowSum(Padded(x, Padding(k.h), Padding(k.w)), k, idxH * sh, idxW * sw)
  }

  /** The value conv_2d_single_kernel leaves in out[i, j] when it succeeds: the window
      sum at a visited position, and the initial 0 at every other cell. */
  ghost function OutputCell(x: Tensor3, k: Tensor3, sh: int, sw: int, i: nat, j: nat): real
    requires CallShapes(x, k, sh, sw) && x.c == k.c
  {
    if i < VisitCount(x.h, k.h, sh) && j < VisitCount(x.w, k.w, sw)
    then WindowAt(x, k, sh, sw, i, j)
    else 0.0
  }

  /** The failure conv_2d_single_kernel raises, if any, checked in the order the code
      meets them: the channel check, the copy into the padded buffer, and the first
      output write whose row or column index lies past the output map. */
  ghost function SingleKernelError(x: Tensor3, k: Tensor3, sh: int, sw: int): Option<FilterError>
    requires CallShapes(x, k, sh, sw)
  {
    var visitedRows := VisitCount(x.h, k.h, sh);
    var visitedCols := VisitCount(x.w, k.w, sw);
    if x.c != k.c then Some(ChannelMismatch(x.c, k.c))
    else if !CopyFits(x.h, Padding(k.h)) || !CopyFits(x.w, Padding(k.w)) then Some(PaddingCopyMismatch)
    else if visitedRows > 0 && visitedCols > 0 && (visitedRows > x.h / sh || visitedCols > x.w / sw)
    then Some(OutputIndexOutOfRange)
    else None
  }

  /** Shapes every conv2d call is made with: a well-formed input, a well-formed bank
      of kernels of positive extent, and positive strides. */
  ghost predicate BankShapes(x: Tensor3, bank: Tensor4, sh: int, sw: int) {
    x.Valid() && bank.Valid() && bank.kh >= 1 && bank.kw >= 1 && sh >= 1 && sw >= 1
  }

  /** The failure conv2d raises, if any: the bank's kernels all have one shape, so the
      first kernel's failure, when the bank is not empty. */
  ghost function BankError(x: Tensor3, bank: Tensor4, sh: int, sw: int): Option<FilterError>
    requires BankShapes(x, bank, sh, sw)
  {
    if bank.oc == 0 then None else SingleKernelError(x, bank.kernels[0], sh, sw)
  }

  /** The value conv2d leaves in out[n, i, j] when it succeeds: the single-kernel
      output of kernel n. */
  ghost function BankCell(x: Tensor3, bank: Tensor4, sh: int, sw: int, n: nat, i: nat, j: nat): real
    requires BankShapes(x, bank, sh, sw) && x.c == bank.c && n < bank.oc
  {
    OutputCell(x, bank.kernels[n], sh, sw, i, j)
  }

  /** Every kernel of a bank fails, or succeeds, exactly as the first one does. */
  lemma KernelsShareError(x: Tensor3, bank: Tensor4, sh: int, sw: int, n: nat)
    requires BankShapes(x, bank, sh, sw) && n < bank.oc
    ensures CallShapes(x, bank.kernels[n], sh, sw)
    ensures SingleKernelError(x, bank.kernels[n], sh, sw) == BankError(x, bank, sh, sw)
  {
  }
}
