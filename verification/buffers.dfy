/** Flat element buffers: the zero-filled host vector, raw device allocations,
    `cudaMemcpy`, and the pointwise loop shared by the elementwise operations.
    Elements are reals; no floating-point rounding is modelled. */
module Buffers {

  /** A value-initialised `std::vector<float>` of `n` elements. */
  function Zeros(n: nat): (s: seq<real>)
    ensures |s| == n
    ensures forall i :: 0 <= i < n ==> s[i] == 0.0
  {
    seq(n, _ => 0.0)
  }

  /** A fresh `cudaMalloc` of `n` elements. Its contents are whatever the
      memory held; `uninit` stands for that unknown content. */
  function Alloc(n: nat, uninit: int -> real): (s: seq<real>)
    ensures |s| == n
  {
    seq(n, i => uninit(i))
  }

  /** `cudaMemcpy` of the first `n` elements of `src` over `dst`. */
  function Memcpy(dst: seq<real>, src: seq<real>, n: nat): (r: seq<real>)
    requires n <= |dst| && n <= |src|
    ensures |r| == |dst|
    ensures forall i :: 0 <= i < n ==> r[i] == src[i]
    ensures forall i :: n <= i < |dst| ==> r[i] == dst[i]
  {
    src[..n] + dst[n..]
  }

  /** Copying a whole buffer over one of the same length leaves exactly the
      source: whatever the destination held before is gone. */
  lemma MemcpyWhole(dst: seq<real>, src: seq<real>)
    requires |dst| == |src|
    ensures Memcpy(dst, src, |src|) == src
  {
  }

  /** The two elementwise operators. */
  datatype Op = Plus | Times

  function Apply(op: Op, x: real, y: real): real
  {
    match op
    case Plus => x + y
    case Times => x * y
  }

  /** The buffer whose i-th element is `Apply(op, xs[i], ys[i])`. */
  function Zip(op: Op, xs: seq<real>, ys: seq<real>): (zs: seq<real>)
    requires |xs| == |ys|
    ensures |zs| == |xs|
    ensures forall i :: 0 <= i < |xs| ==> zs[i] == Apply(op, xs[i], ys[i])
  {
    seq(|xs|, i requires 0 <= i < |xs| => Apply(op, xs[i], ys[i]))
  }
}
