/** Tensors as nested sequences, and the shape operations the attention core
    applies to its masks: `unsqueeze` (insert an axis of size one) and
    `expand` (broadcast every axis of size one to the size asked for).
    A tensor of rank k is a k-fold nested sequence; `IsMat`, `Is3` and `Is4`
    say that it is rectangular with the given sizes. */
module Tensors {

  datatype Option<T> = None | Some(value: T)

  datatype Result<T, E> = Ok(value: T) | Err(error: E)

  type Mat<T> = seq<seq<T>>
  type Tensor3<T> = seq<seq<seq<T>>>
  type Tensor4<T> = seq<seq<seq<seq<T>>>>

  predicate IsMat<T>(m: Mat<T>, d0: nat, d1: nat) {
    |m| == d0 && forall i :: 0 <= i < |m| ==> |m[i]| == d1
  }

  predicate Is3<T>(t: Tensor3<T>, d0: nat, d1: nat, d2: nat) {
    |t| == d0 && forall i :: 0 <= i < |t| ==> IsMat(t[i], d1, d2)
  }

  predicate Is4<T>(t: Tensor4<T>, d0: nat, d1: nat, d2: nat, d3: nat) {
    |t| == d0 && forall i :: 0 <= i < |t| ==> Is3(t[i], d1, d2, d3)
  }

  /** An axis of size `n` can be expanded to size `d`: it already has that
      size, or it has size one and is repeated. */
  predicate Fits(n: nat, d: nat) {
    n == 1 || n == d
  }

  /** The index an expanded axis of size `n` reads for output index `i`. */
  function Pick(n: nat, i: nat): nat {
    if n == 1 then 0 else i
  }

  predicate Broadcastable3<T>(t: Tensor3<T>, d0: nat, d1: nat, d2: nat) {
    && Fits(|t|, d0)
    && forall i :: 0 <= i < |t| ==>
         && Fits(|t[i]|, d1)
         && forall j :: 0 <= j < |t[i]| ==> Fits(|t[i][j]|, d2)
  }

  predicate Broadcastable4<T>(t: Tensor4<T>, d0: nat, d1: nat, d2: nat, d3: nat) {
    Fits(|t|, d0) && forall i :: 0 <= i < |t| ==> Broadcastable3(t[i], d1, d2, d3)
  }

  /** The element `expand` places at (i, j, k). */
  function At3<T>(t: Tensor3<T>, d0: nat, d1: nat, d2: nat, i: nat, j: nat, k: nat): T
    requires Broadcastable3(t, d0, d1, d2) && i < d0 && j < d1 && k < d2
  {
    var a := t[Pick(|t|, i)];
    var b := a[Pick(|a|, j)];
    b[Pick(|b|, k)]
  }

  /** `expand` of a rank-3 tensor to shape (d0, d1, d2). */
  function Expand3<T>(t: Tensor3<T>, d0: nat, d1: nat, d2: nat): (r: Tensor3<T>)
    requires Broadcastable3(t, d0, d1, d2)
    ensures Is3(r, d0, d1, d2)
    ensures forall i, j, k :: 0 <= i < d0 && 0 <= j < d1 && 0 <= k < d2 ==>
              r[i][j][k] == At3(t, d0, d1, d2, i, j, k)
  {
    seq(d0, i requires 0 <= i < d0 =>
      var a := t[Pick(|t|, i)];
      seq(d1, j requires 0 <= j < d1 =>
        var b := a[Pick(|a|, j)];
        seq(d2, k requires 0 <= k < d2 => b[Pick(|b|, k)])))
  }

  /** `expand` of a rank-4 tensor to shape (d0, d1, d2, d3). */
  function Expand4<T>(t: Tensor4<T>, d0: nat, d1: nat, d2: nat, d3: nat): (r: Tensor4<T>)
    requires Broadcastable4(t, d0, d1, d2, d3)
    ensures Is4(r, d0, d1, d2, d3)
    ensures forall i :: 0 <= i < d0 ==> r[i] == Expand3(t[Pick(|t|, i)], d1, d2, d3)
  {
    seq(d0, i requires 0 <= i < d0 => Expand3(t[Pick(|t|, i)], d1, d2, d3))
  }

  /** `m.unsqueeze(0)`: shape (d0, d1) becomes (1, d0, d1). */
  function Unsqueeze0<T>(m: Mat<T>): (r: Tensor3<T>)
    ensures |r| == 1 && r[0] == m
  {
    [m]
  }

  /** `m.unsqueeze(1)`: shape (d0, d1) becomes (d0, 1, d1); on a rank-3
      tensor (d0, d1, d2) it gives (d0, 1, d1, d2). */
  function Unsqueeze1<T>(m: Mat<T>): (r: Tensor3<T>)
    ensures |r| == |m| && forall i :: 0 <= i < |m| ==> r[i] == [m[i]]
  {
    seq(|m|, i requires 0 <= i < |m| => [m[i]])
  }
}
