/** Properties of the convolution specification: how many window positions are
    visited, when the output writes stay inside the output map, the layout of the
    padded buffer, and what the routines return on particular inputs. */
module FilterProperties {
  import opened Tensors
  import opened FilterSpec

  /** q * s <= m exactly when q <= m / s. */
  lemma MulLeIffLeDiv(q: nat, m: nat, s: nat)
    requires s >= 1
    ensures q * s <= m <==> q <= m / s
  {
    var d, rem := m / s, m % s;
    assert m == d * s + rem && 0 <= rem < s;
    if q <= d {
      assert q * s <= d * s by {
        assert (d - q) * s >= 0;
      }
    } else {
      assert q * s >= (d + 1) * s by {
        assert (q - d - 1) * s >= 0;
      }
    }
  }

  /** The closed form of len(range(0, n - k, s)). */
  lemma VisitCountClosedForm(n: nat, k: nat, s: nat)
    requires s >= 1
    ensures VisitCount(n, k, s) == if n > k then (n - k - 1) / s + 1 else 0
  {
    var v := VisitCount(n, k, s);
    if n > k {
      var q := (n - k - 1) / s;
      MulLeIffLeDiv(q, n - k - 1, s);
      VisitedIff(n, k, s, q);
      MulLeIffLeDiv(q + 1, n - k - 1, s);
      VisitedIff(n, k, s, q + 1);
    } else {
      VisitedIff(n, k, s, 0);
    }
  }

  /** With stride 1 the loop visits n - k positions along an axis of extent n
      (none when the kernel is at least as large as the axis). */
  lemma UnitStrideVisitCount(n: nat, k: nat)
    ensures VisitCount(n, k, 1) == if n > k then n - k else 0
  {
    VisitCountClosedForm(n, k, 1);
  }

  /** When the stride is at most k + 1, every visited position along an axis has a
      cell in the output map, whose extent along that axis is n / s. */
  lemma WritesInBounds(n: nat, k: nat, s: nat)
    requires 1 <= s <= k + 1
    ensures VisitCount(n, k, s) <= n / s
  {
    var v := VisitCount(n, k, s);
    if v > 0 {
      VisitedIff(n, k, s, v - 1);
      NextMultiple(v - 1, s);
      MulLeIffLeDiv(v, n, s);
    }
  }

  /** The window of every visited position lies inside the padded buffer, and in
      fact inside its first h rows and w columns. */
  lemma VisitedWindowInside(x: Tensor3, k: Tensor3, sh: int, sw: int, i: nat, j: nat)
    requires CallShapes(x, k, sh, sw) && x.c == k.c
    requires i < VisitCount(x.h, k.h, sh) && j < VisitCount(x.w, k.w, sw)
    ensures WindowFits(Padded(x, Padding(k.h), Padding(k.w)), k, i * sh, j * sw)
    ensures i * sh + k.h < x.h && j * sw + k.w < x.w
  {
    VisitedIff(x.h, k.h, sh, i);
    VisitedIff(x.w, k.w, sw, j);
  }

  /** A call with matching channels, kernels of extent at least 3 and strides of at
      most kernel extent + 1 does not fail. */
  lemma WellShapedCallSucceeds(x: Tensor3, k: Tensor3, sh: int, sw: int)
    requires CallShapes(x, k, sh, sw) && x.c == k.c
    requires k.h >= 3 && k.w >= 3 && sh <= k.h + 1 && sw <= k.w + 1
    ensures SingleKernelError(x, k, sh, sw) == None
  {
    WritesInBounds(x.h, k.h, sh);
    WritesInBounds(x.w, k.w, sw);
  }

  /** With matching channels, the copy into the padded buffer fails exactly when a
      kernel extent below 3 (padding 0) meets an input axis longer than 1. */
  lemma PaddingFailureIff(x: Tensor3, k: Tensor3, sh: int, sw: int)
    requires CallShapes(x, k, sh, sw) && x.c == k.c
    ensures SingleKernelError(x, k, sh, sw) == Some(PaddingCopyMismatch) <==>
              (k.h < 3 && x.h > 1) || (k.w < 3 && x.w > 1)
  {
  }

  /** A stride larger than k + 1 can push the sequential row index past the output:
      h = 9, kh = 3, sh = 5 visits rows 0 and 5 but the output has 9 / 5 = 1 row. */
  lemma LargeStrideOverrun()
    ensures VisitCount(9, 3, 5) == 2 && 9 / 5 == 1
    ensures SingleKernelError(Filled(1, 9, 9, 1.0), Filled(1, 3, 3, 1.0), 5, 5) == Some(OutputIndexOutOfRange)
  {
  }

  /** A 1 x 1 kernel on a 4 x 4 input gets padding 0, and the copy of the input into
      the empty interior slice fails. */
  lemma UnitKernelCopyFails()
    ensures SingleKernelError(Filled(1, 4, 4, 1.0), Filled(1, 1, 1, 1.0), 1, 1) == Some(PaddingCopyMismatch)
  {
  }

  /** The padded buffer holds the input at offset (ph, pw) and 0 on the border when
      both paddings are positive, and is all 0 when either is 0. */
  lemma PaddedLayout(x: Tensor3, ph: nat, pw: nat)
    requires x.Valid()
    ensures var p := Padded(x, ph, pw);
      p.c == x.c && p.h == x.h + 2 * ph && p.w == x.w + 2 * pw &&
      (ph > 0 && pw > 0 ==>
        forall ch, r, col :: 0 <= ch < x.c && 0 <= r < x.h && 0 <= col < x.w ==>
          p.data[ch][r + ph][col + pw] == x.data[ch][r][col]) &&
      (forall ch, r, col ::
        (0 <= ch < p.c && 0 <= r < p.h && 0 <= col < p.w &&
         !(ph > 0 && pw > 0 && ph <= r < ph + x.h && pw <= col < pw + x.w))
        ==> p.data[ch][r][col] == 0.0)
  {
  }

  /** A partial sum along one kernel row over an all-zero buffer is 0. */
  lemma {:induction false} ColSumOfZero(p: Tensor3, k: Tensor3, i: nat, j: nat, ch: nat, a: nat, m: nat)
    requires WindowFits(p, k, i, j) && ch < k.c && a < k.h && m <= k.w && p.AllZero()
    ensures ColSum(p, k, i, j, ch, a, m) == 0.0
  {
    if m > 0 {
      ColSumOfZero(p, k, i, j, ch, a, m - 1);
    }
  }

  /** A partial sum over the rows of one channel of an all-zero buffer is 0. */
  lemma {:induction false} RowSumOfZero(p: Tensor3, k: Tensor3, i: nat, j: nat, ch: nat, m: nat)
    requires WindowFits(p, k, i, j) && ch < k.c && m <= k.h && p.AllZero()
    ensures RowSum(p, k, i, j, ch, m) == 0.0
  {
    if m > 0 {
      RowSumOfZero(p, k, i, j, ch, m - 1);
      ColSumOfZero(p, k, i, j, ch, m - 1, k.w);
    }
  }

  /** A partial window sum over the channels of an all-zero buffer is 0. */
  lemma {:induction false} ChannelSumOfZero(p: Tensor3, k: Tensor3, i: nat, j: nat, m: nat)
    requires WindowFits(p, k, i, j) && m <= k.c && p.AllZero()
    ensures ChannelSum(p, k, i, j, m) == 0.0
  {
    if m > 0 {
      ChannelSumOfZero(p, k, i, j, m - 1);
      RowSumOfZero(p, k, i, j, m - 1, k.h);
    }
  }

  /** An all-zero input gives an all-zero output, whatever the kernel. */
  lemma ZeroInputZeroOutput(x: Tensor3, k: Tensor3, sh: int, sw: int, i: nat, j: nat)
    requires CallShapes(x, k, sh, sw) && x.c == k.c && x.AllZero()
    ensures OutputCell(x, k, sh, sw, i, j) == 0.0
  {
    if i < VisitCount(x.h, k.h, sh) && j < VisitCount(x.w, k.w, sw) {
      var p := Padded(x, Padding(k.h), Padding(k.w));
      VisitedWindowInside(x, k, sh, sw, i, j);
      ChannelSumOfZero(p, k, i * sh, j * sw, k.c);
    }
  }

  /** A 3 x 3 kernel of ones over a 4 x 4 input of ones with stride 1: the output is
      4 x 4, the single visited position (0, 0) sees the 2 x 2 corner of the input
      inside its window (the rest of the window is padding), and every other cell is 0. */
  lemma OnesExample(i: nat, j: nat)
    ensures var x, k := Filled(1, 4, 4, 1.0), Filled(1, 3, 3, 1.0);
      SingleKernelError(x, k, 1, 1) == None &&
      OutputCell(x, k, 1, 1, i, j) == if i == 0 && j == 0 then 4.0 else 0.0
  {
  }

  /** The single-channel 3 x 3 kernel with 1 at its centre and 0 elsewhere. */
  function CentreKernel(): (k: Tensor3)
    ensures k.Valid() && k.c == 1 && k.h == 3 && k.w == 3
    ensures forall a, b :: 0 <= a < 3 && 0 <= b < 3 ==> k.data[0][a][b] == if a == 1 && b == 1 then 1.0 else 0.0
  {
    Tensor3(1, 3, 3, [[[0.0, 0.0, 0.0], [0.0, 1.0, 0.0], [0.0, 0.0, 0.0]]])
  }

  /** The padding of a 3 x 3 kernel centres it on the input cell: with the centre
      kernel, the output at visited position (i, j) is the input cell at row i * sh
      and column j * sw, for any strides. */
  lemma CentreKernelSamplesInput(x: Tensor3, sh: int, sw: int, i: nat, j: nat)
    requires CallShapes(x, CentreKernel(), sh, sw) && x.c == 1
    requires i < VisitCount(x.h, 3, sh) && j < VisitCount(x.w, 3, sw)
    ensures i * sh < x.h && j * sw < x.w
    ensures OutputCell(x, CentreKernel(), sh, sw, i, j) == x.data[0][i * sh][j * sw]
  {
    var k := CentreKernel();
    VisitedWindowInside(x, k, sh, sw, i, j);
    var p := Padded(x, 1, 1);
    var r, c := i * sh, j * sw;
    assert p.data[0][r + 1][c + 1] == x.data[0][r][c];
    assert k.data[0][0] == [0.0, 0.0, 0.0] && k.data[0][2] == [0.0, 0.0, 0.0];
    assert k.data[0][1] == [0.0, 1.0, 0.0];
    assert ColSum(p, k, r, c, 0, 0, 1) == 0.0;
    assert ColSum(p, k, r, c, 0, 0, 2) == ColSum(p, k, r, c, 0, 0, 1) + p.data[0][r][c + 1] * k.data[0][0][1];
    assert ColSum(p, k, r, c, 0, 0, 2) == 0.0;
    assert ColSum(p, k, r, c, 0, 0, 3) == 0.0;
    assert ColSum(p, k, r, c, 0, 1, 1) == 0.0;
    assert ColSum(p, k, r, c, 0, 1, 2) == ColSum(p, k, r, c, 0, 1, 1) + p.data[0][r + 1][c + 1] * k.data[0][1][1];
    assert ColSum(p, k, r, c, 0, 1, 2) == x.data[0][r][c];
    assert ColSum(p, k, r, c, 0, 1, 3) == x.data[0][r][c];
    assert ColSum(p, k, r, c, 0, 2, 1) == 0.0;
    assert ColSum(p, k, r, c, 0, 2, 2) == 0.0;
    assert ColSum(p, k, r, c, 0, 2, 3) == 0.0;
    assert RowSum(p, k, r, c, 0, 1) == 0.0;
    assert RowSum(p, k, r, c, 0, 2) == x.data[0][r][c];
    assert RowSum(p, k, r, c, 0, 3) == x.data[0][r][c];
    assert ChannelSum(p, k, r, c, 1) == x.data[0][r][c];
    assert WindowAt(x, k, sh, sw, i, j) == WindowSum(p, k, r, c);
  }

  /** A scalar stride s is the pair (s, s). */
  lemma ScalarStrideIsPair(s: int)
    ensures Normalize(Scalar(s)) == Normalize(Pair(s, s)) == (s, s)
  {
  }
}
