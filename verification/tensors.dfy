/** Dense tensors of exact reals, and the small result types the convolution routines return. */
module Tensors {

  datatype Option<+T> = None | Some(value: T)

  datatype Result<+T, +E> = Ok(value: T) | Err(error: E)
  {
    predicate IsFailure() {
      Err?
    }

    function PropagateFailure<U>(): Result<U, E>
      requires Err?
    {
      Err(error)
    }

    function Extract(): T
      requires Ok?
    {
      value
    }
  }

  /** A [c, h, w] tensor. The shape is kept beside the nested data so that a
      tensor with no channels (or no rows) still knows its other extents. */
  datatype Tensor3 = Tensor3(c: nat, h: nat, w: nat, data: seq<seq<seq<real>>>)
  {
    ghost predicate Valid() {
      |data| == c &&
      (forall ch :: 0 <= ch < c ==> |data[ch]| == h) &&
      (forall ch, r :: 0 <= ch < c && 0 <= r < h ==> |data[ch][r]| == w)
    }

    /** Every cell of the tensor is 0. */
    ghost predicate AllZero()
      requires Valid()
    {
      forall ch, r, col :: 0 <= ch < c && 0 <= r < h && 0 <= col < w ==> data[ch][r][col] == 0.0
    }
  }

  /** A kernel bank of shape [oc, c, kh, kw]: oc kernels, each a [c, kh, kw] tensor. */
  datatype Tensor4 = Tensor4(oc: nat, c: nat, kh: nat, kw: nat, kernels: seq<Tensor3>)
  {
    ghost predicate Valid() {
      |kernels| == oc &&
      forall n :: 0 <= n < oc ==>
        kernels[n].Valid() && kernels[n].c == c && kernels[n].h == kh && kernels[n].w == kw
    }
  }

  /** The tensor of shape [c, h, w] whose every cell is v. */
  function Filled(c: nat, h: nat, w: nat, v: real): (t: Tensor3)
    ensures t.Valid() && t.c == c && t.h == h && t.w == w
    ensures forall ch, r, col :: 0 <= ch < c && 0 <= r < h && 0 <= col < w ==> t.data[ch][r][col] == v
  {
    Tensor3(c, h, w, seq(c, _ => seq(h, _ => seq(w, _ => v))))
  }

  /** The value currently held by a three-dimensional array. */
  function Contents3(a: array3<real>): (t: Tensor3)
    reads a
    ensures t.Valid() && t.c == a.Length0 && t.h == a.Length1 && t.w == a.Length2
    ensures forall ch, r, col :: 0 <= ch < t.c && 0 <= r < t.h && 0 <= col < t.w ==> t.data[ch][r][col] == a[ch, r, col]
  {
    Tensor3(a.Length0, a.Length1, a.Length2,
      seq(a.Length0, ch requires 0 <= ch < a.Length0 reads a =>
        seq(a.Length1, r requires 0 <= r < a.Length1 reads a =>
          seq(a.Length2, col requires 0 <= col < a.Length2 reads a => a[ch, r, col]))))
  }

  /** Two well-formed tensors of the same shape that agree on every cell are equal. */
  lemma SameCellsSameTensor(s: Tensor3, t: Tensor3)
    requires s.Valid() && t.Valid() && s.c == t.c && s.h == t.h && s.w == t.w
    requires forall ch, r, col :: 0 <= ch < s.c && 0 <= r < s.h && 0 <= col < s.w ==> s.data[ch][r][col] == t.data[ch][r][col]
    ensures s == t
  {
    forall ch | 0 <= ch < s.c
      ensures s.data[ch] == t.data[ch]
    {
      forall r | 0 <= r < s.h
        ensures s.data[ch][r] == t.data[ch][r]
      {
      }
    }
  }
}
