/** The two routines of filter/filter.py: the convolution of one [c, h, w] input with
    one [c, kh, kw] kernel, and its application to a bank of kernels. The input and
    the kernels are values, so neither routine can change them. */
module Filter {
  import opened Tensors
  import opened FilterSpec

  /** Lines 29-30 of conv_2d_single_kernel: a zero buffer of shape
      (c, h + 2 * ph, w + 2 * pw) whose slice [:, ph:-ph, pw:-pw] is assigned the input.
      Returns the buffer's contents, or the failure numpy raises when a padding is 0
      and the input axis cannot be broadcast onto the empty slice. */
  method PadInput(x: Tensor3, ph: nat, pw: nat) returns (r: Result<Tensor3, FilterError>)
    requires x.Valid()
    ensures r.Err? <==> !CopyFits(x.h, ph) || !CopyFits(x.w, pw)
    ensures r.Err? ==> r.error == PaddingCopyMismatch
    ensures r.Ok? ==> r.value == Padded(x, ph, pw)
  {
    var pd := new real[x.c, x.h + ph * 2, x.w + pw * 2]((_, _, _) => 0.0);
    if ph > 0 && pw > 0 {
      forall ch, row, col | 0 <= ch < x.c && 0 <= row < x.h && 0 <= col < x.w {
        pd[ch, row + ph, col + pw] := x.data[ch][row][col];
      }
    } else if (ph == 0 && x.h > 1) || (pw == 0 && x.w > 1) {
      return Err(PaddingCopyMismatch);
    }
    forall ch, row, col | 0 <= ch < x.c && 0 <= row < pd.Length1 && 0 <= col < pd.Length2
      ensures pd[ch, row, col] == PaddedAt(x, ph, pw, ch, row, col)
    {
      if ph > 0 && pw > 0 && ph <= row < ph + x.h && pw <= col < pw + x.w {
        assert pd[ch, (row - ph) + ph, (col - pw) + pw] == x.data[ch][row - ph][col - pw];
      }
    }
    var padded := Contents3(pd);
    SameCellsSameTensor(padded, Padded(x, ph, pw));
    return Ok(padded);
  }

  /** conv_2d_single_kernel: zero-pads the input by (kh - 1) / 2 rows and (kw - 1) / 2
      columns on each side, allocates an output of shape (h / sh, w / sw) filled with 0,
      and writes the window sum of every position of range(0, h - kh, sh) x
      range(0, w - kw, sw) into sequential output cells. */
  method Conv2dSingleKernel(x: Tensor3, k: Tensor3, stride: (int, int)) returns (r: Result<array2<real>, FilterError>)
    requires CallShapes(x, k, stride.0, stride.1)
    ensures r.Err? <==> SingleKernelError(x, k, stride.0, stride.1).Some?
    ensures r.Err? ==> SingleKernelError(x, k, stride.0, stride.1) == Some(r.error)
    ensures r.Ok? ==> fresh(r.value)
    ensures r.Ok? ==> r.value.Length0 == x.h / stride.0 && r.value.Length1 == x.w / stride.1
    ensures r.Ok? ==>
      forall i, j :: 0 <= i < r.value.Length0 && 0 <= j < r.value.Length1 ==>
        x.c == k.c && r.value[i, j] == OutputCell(x, k, stride.0, stride.1, i, j)
  {
    var (sh, sw) := stride;
    if x.c != k.c {
      return Err(ChannelMismatch(x.c, k.c));
    }

    var ph := Padding(k.h);
    var pw := Padding(k.w);
    var padded :- PadInput(x, ph, pw);

    var out := new real[x.h / sh, x.w / sw]((_, _) => 0.0);
    ghost var visitedRows := VisitCount(x.h, k.h, sh);
    ghost var visitedCols := VisitCount(x.w, k.w, sw);
    var i, idxH := 0, 0;
    while i < x.h - k.h
      invariant idxH <= visitedRows && i == idxH * sh
      invariant visitedCols > 0 ==> idxH <= out.Length0
      invariant idxH > 0 ==> visitedCols <= out.Length1
      invariant forall a, b :: 0 <= a < out.Length0 && 0 <= b < out.Length1 ==>
        out[a, b] == (if a < idxH then OutputCell(x, k, sh, sw, a, b) else 0.0)
      decreases x.h - k.h - i
    {
      VisitedIff(x.h, k.h, sh, idxH);
      var j, idxW := 0, 0;
      while j < x.w - k.w
        invariant idxW <= visitedCols && j == idxW * sw
        invariant idxW > 0 ==> idxH < out.Length0
        invariant idxW <= out.Length1
        invariant forall a, b :: 0 <= a < out.Length0 && 0 <= b < out.Length1 ==>
          out[a, b] == (if a < idxH || (a == idxH && b < idxW) then OutputCell(x, k, sh, sw, a, b) else 0.0)
        decreases x.w - k.w - j
      {
        VisitedIff(x.w, k.w, sw, idxW);
        if idxH >= out.Length0 || idxW >= out.Length1 {
          return Err(OutputIndexOutOfRange);
        }
        out[idxH, idxW] := WindowSum(padded, k, i, j);
        NextMultiple(idxW, sw);
        idxW, j := idxW + 1, j + sw;
      }
      VisitedIff(x.w, k.w, sw, idxW);
      NextMultiple(idxH, sh);
      idxH, i := idxH + 1, i + sh;
    }
    VisitedIff(x.h, k.h, sh, idxH);
    return Ok(out);
  }

  /** The slice assignment out[n, :, :] = plane of conv2d. */
  method AssignChannel(out: array3<real>, n: nat, plane: array2<real>)
    requires n < out.Length0 && plane.Length0 == out.Length1 && plane.Length1 == out.Length2
    modifies out
    ensures forall m, a, b :: 0 <= m < out.Length0 && 0 <= a < out.Length1 && 0 <= b < out.Length2 ==>
      out[m, a, b] == if m == n then plane[a, b] else old(out[m, a, b])
  {
    forall a, b | 0 <= a < out.Length1 && 0 <= b < out.Length2 {
      out[n, a, b] := plane[a, b];
    }
  }

  /** One iteration of conv2d: out[n, :, :] = conv_2d_single_kernel(input, kernel[n], (sh, sw)).
      Either fails as the whole bank does, or stores the output of kernel n in channel n
      of out and leaves the other channels alone. */
  method StoreKernelOutput(x: Tensor3, bank: Tensor4, sh: int, sw: int, n: nat, out: array3<real>)
    returns (e: Option<FilterError>)
    requires BankShapes(x, bank, sh, sw) && n < bank.oc
    requires out.Length0 == bank.oc && out.Length1 == x.h / sh && out.Length2 == x.w / sw
    modifies out
    ensures e == BankError(x, bank, sh, sw)
    ensures e.Some? ==> unchanged(out)
    ensures e.None? ==> x.c == bank.c
    ensures e.None? ==>
      forall m, a, b :: 0 <= m < out.Length0 && 0 <= a < out.Length1 && 0 <= b < out.Length2 ==>
        out[m, a, b] == if m == n then BankCell(x, bank, sh, sw, n, a, b) else old(out[m, a, b])
  {
    KernelsShareError(x, bank, sh, sw, n);
    var single := Conv2dSingleKernel(x, bank.kernels[n], (sh, sw));
    if single.Err? {
      return Some(single.error);
    }
    AssignChannel(out, n, single.value);
    return None;
  }

  /** conv2d: the stride defaults to 1; normalises the stride, allocates an output of shape
      (oc, h / sh, w / sw) filled with 0, and fills out[n] with the single-kernel
      convolution by kernel n, for n in index order. The first failing kernel aborts
      the call; since all kernels of a bank share one shape, that is kernel 0. */
  method Conv2d(x: Tensor3, bank: Tensor4, stride: Stride := Scalar(1)) returns (r: Result<array3<real>, FilterError>)
    requires BankShapes(x, bank, Normalize(stride).0, Normalize(stride).1)
    ensures r.Err? <==> BankError(x, bank, Normalize(stride).0, Normalize(stride).1).Some?
    ensures r.Err? ==> BankError(x, bank, Normalize(stride).0, Normalize(stride).1) == Some(r.error)
    ensures r.Ok? ==> fresh(r.value)
    ensures r.Ok? ==>
      r.value.Length0 == bank.oc && r.value.Length1 == x.h / Normalize(stride).0 && r.value.Length2 == x.w / Normalize(stride).1
    ensures r.Ok? ==>
      forall n, i, j :: 0 <= n < r.value.Length0 && 0 <= i < r.value.Length1 && 0 <= j < r.value.Length2 ==>
        x.c == bank.c && r.value[n, i, j] == BankCell(x, bank, Normalize(stride).0, Normalize(stride).1, n, i, j)
  {
    var (sh, sw) := Normalize(stride);
    var out := new real[bank.oc, x.h / sh, x.w / sw]((_, _, _) => 0.0);
    var n := 0;
    while n < bank.oc
      invariant n <= bank.oc
      invariant n > 0 ==> x.c == bank.c && BankError(x, bank, sh, sw) == None
      invariant forall m, a, b :: 0 <= m < out.Length0 && 0 <= a < out.Length1 && 0 <= b < out.Length2 ==>
        out[m, a, b] == (if m < n then BankCell(x, bank, sh, sw, m, a, b) else 0.0)
    {
      var e := StoreKernelOutput(x, bank, sh, sw, n, out);
      if e.Some? {
        return Err(e.value);
      }
      n := n + 1;
    }
    return Ok(out);
  }
}
