/** The head split and merge of multi-head attention.

    The projections of key, value and query have shape
    (batch, length, model_dim); attention views them as
    (batch, length, heads, dim_per_head) and swaps axes 1 and 2 to get
    (batch, heads, length, dim_per_head). The attended values go back the
    other way. Both directions are pure index remappings; this module
    states them and proves that each undoes the other. */
module Heads {
  import opened Tensors

  /** Why `MultiHeadedAttention` cannot be built. */
  datatype HeadError =
    | ZeroHeads            // `model_dim % 0` raises ZeroDivisionError
    | IndivisibleModelDim  // `assert model_dim % head_count == 0` fails

  /** The head layout an attention module is built with. */
  datatype HeadShape = HeadShape(heads: nat, dimPerHead: nat)

  /** The constructor's check and the per-head width it derives. */
  function Configure(modelDim: nat, headCount: nat): (r: Result<HeadShape, HeadError>)
    ensures headCount == 0 ==> r == Err(ZeroHeads)
    ensures r.Ok? ==> r.value.heads == headCount && headCount * r.value.dimPerHead == modelDim
    ensures r.Err? ==> headCount == 0 || forall d: nat :: headCount * d != modelDim
    ensures headCount > 0 && r.Err? ==> r.error == IndivisibleModelDim
  {
    if headCount == 0 then Err(ZeroHeads)
    else if modelDim % headCount != 0 then
      assert forall d: nat :: headCount * d != modelDim by {
        forall d: nat ensures headCount * d != modelDim {
          MulMod(headCount, d);
        }
      }
      Err(IndivisibleModelDim)
    else Ok(HeadShape(headCount, modelDim / headCount))
  }

  lemma MulMod(h: nat, d: nat)
    requires h > 0
    ensures (h * d) % h == 0
  {
    DivModUnique(h * d, h, d, 0);
  }

  /** Quotient and remainder are unique: the index arithmetic behind the
      round trips. */
  lemma DivModUnique(x: nat, n: nat, q: nat, r: nat)
    requires n > 0 && r < n && x == q * n + r
    ensures x / n == q && x % n == r
  {
    var q', r' := x / n, x % n;
    assert x == q' * n + r';
    if q' < q {
      MulMonotone(q' + 1, q, n);
      assert false;
    } else if q < q' {
      MulMonotone(q + 1, q', n);
      assert false;
    }
  }

  lemma MulMonotone(a: nat, b: nat, n: nat)
    requires a <= b
    ensures a * n <= b * n
  {
  }

  /** One feature row cut into `heads` consecutive blocks of `d` features:
      the last-axis part of `view(batch, -1, heads, d)`. */
  function Chunk<T>(row: seq<T>, heads: nat, d: nat): (r: seq<seq<T>>)
    requires |row| == heads * d
    ensures |r| == heads && forall h :: 0 <= h < heads ==> |r[h]| == d
  {
    if heads == 0 then [] else [row[..d]] + Chunk(row[d..], heads - 1, d)
  }

  /** Blocks laid end to end: the last-axis part of `view(batch, -1, heads * d)`. */
  function Concat<T>(cs: seq<seq<T>>): seq<T> {
    if cs == [] then [] else cs[0] + Concat(cs[1..])
  }

  /** Block h of a chunked row holds the features h * d .. h * d + d - 1. */
  lemma {:induction false} ChunkAt<T>(row: seq<T>, heads: nat, d: nat, h: nat, e: nat)
    requires |row| == heads * d && h < heads && e < d
    ensures h * d + e < |row| && Chunk(row, heads, d)[h][e] == row[h * d + e]
  {
    if h > 0 {
      ChunkAt(row[d..], heads - 1, d, h - 1, e);
      assert d + (h - 1) * d == h * d;
    }
  }

  /** Blocks of equal width `d` concatenate to a row of width |cs| * d. */
  lemma {:induction false} ConcatLength<T>(cs: seq<seq<T>>, d: nat)
    requires forall h :: 0 <= h < |cs| ==> |cs[h]| == d
    ensures |Concat(cs)| == |cs| * d
  {
    if cs != [] {
      ConcatLength(cs[1..], d);
      assert |cs| * d == d + (|cs| - 1) * d;
    }
  }

  /** Concatenating the blocks of a row gives the row back. */
  lemma {:induction false} ConcatOfChunk<T>(row: seq<T>, heads: nat, d: nat)
    requires |row| == heads * d
    ensures Concat(Chunk(row, heads, d)) == row
  {
    if heads > 0 {
      var c := Chunk(row, heads, d);
      assert c[1..] == Chunk(row[d..], heads - 1, d);
      ConcatOfChunk(row[d..], heads - 1, d);
      assert row[..d] + row[d..] == row;
    }
  }

  /** Cutting a concatenation of equal-width blocks gives the blocks back. */
  lemma {:induction false} ChunkOfConcat<T>(cs: seq<seq<T>>, d: nat)
    requires forall h :: 0 <= h < |cs| ==> |cs[h]| == d
    ensures |Concat(cs)| == |cs| * d && Chunk(Concat(cs), |cs|, d) == cs
  {
    ConcatLength(cs, d);
    if cs != [] {
      var row := Concat(cs);
      assert row == cs[0] + Concat(cs[1..]);
      ConcatLength(cs[1..], d);
      assert row[..d] == cs[0];
      assert row[d..] == Concat(cs[1..]);
      ChunkOfConcat(cs[1..], d);
      assert cs == [cs[0]] + cs[1..];
    }
  }

  /** `x.view(batch, -1, heads, d)`: every feature row is cut into `heads`
      blocks of `d` features. */
  function ViewHeads<T>(x: Tensor3<T>, batch: nat, len: nat, heads: nat, d: nat): (r: Tensor4<T>)
    requires Is3(x, batch, len, heads * d)
    ensures Is4(r, batch, len, heads, d)
    ensures forall b, l :: 0 <= b < batch && 0 <= l < len ==> r[b][l] == Chunk(x[b][l], heads, d)
  {
    seq(batch, b requires 0 <= b < batch =>
      seq(len, l requires 0 <= l < len => Chunk(x[b][l], heads, d)))
  }

  /** `t.view(batch, -1, heads * d)`: the blocks of every row are laid end
      to end again. */
  function ViewFlat<T>(t: Tensor4<T>, batch: nat, len: nat, heads: nat, d: nat): (r: Tensor3<T>)
    requires Is4(t, batch, len, heads, d)
    ensures Is3(r, batch, len, heads * d)
    ensures forall b, l :: 0 <= b < batch && 0 <= l < len ==> r[b][l] == Concat(t[b][l])
  {
    var r := seq(batch, b requires 0 <= b < batch =>
               seq(len, l requires 0 <= l < len => Concat(t[b][l])));
    assert forall b, l :: 0 <= b < batch && 0 <= l < len ==> |r[b][l]| == heads * d by {
      forall b, l | 0 <= b < batch && 0 <= l < len ensures |r[b][l]| == heads * d {
        ConcatLength(t[b][l], d);
      }
    }
    r
  }

  /** `t.transpose(1, 2)`. */
  function Transpose12<T>(t: Tensor4<T>, d0: nat, d1: nat, d2: nat, d3: nat): (r: Tensor4<T>)
    requires Is4(t, d0, d1, d2, d3)
    ensures Is4(r, d0, d2, d1, d3)
    ensures forall a, i, j, k :: 0 <= a < d0 && 0 <= i < d2 && 0 <= j < d1 && 0 <= k < d3 ==>
              r[a][i][j][k] == t[a][j][i][k]
  {
    seq(d0, a requires 0 <= a < d0 =>
      seq(d2, i requires 0 <= i < d2 =>
        seq(d1, j requires 0 <= j < d1 =>
          seq(d3, k requires 0 <= k < d3 => t[a][j][i][k]))))
  }

  /** Splitting into heads: (batch, len, heads * d) to (batch, heads, len, d). */
  function SplitHeads<T>(x: Tensor3<T>, batch: nat, len: nat, s: HeadShape): (r: Tensor4<T>)
    requires Is3(x, batch, len, s.heads * s.dimPerHead)
    ensures Is4(r, batch, s.heads, len, s.dimPerHead)
  {
    Transpose12(ViewHeads(x, batch, len, s.heads, s.dimPerHead), batch, len, s.heads, s.dimPerHead)
  }

  /** Merging heads: (batch, heads, len, d) to (batch, len, heads * d). */
  function MergeHeads<T>(y: Tensor4<T>, batch: nat, len: nat, s: HeadShape): (r: Tensor3<T>)
    requires Is4(y, batch, s.heads, len, s.dimPerHead)
    ensures Is3(r, batch, len, s.heads * s.dimPerHead)
  {
    ViewFlat(Transpose12(y, batch, s.heads, len, s.dimPerHead), batch, len, s.heads, s.dimPerHead)
  }

  /** Head h of a split holds, for every position, the h-th block of
      `dimPerHead` features of the projection. */
  lemma {:induction false} SplitHeadsAt<T>(x: Tensor3<T>, batch: nat, len: nat, s: HeadShape,
                                           b: nat, h: nat, l: nat, e: nat)
    requires Is3(x, batch, len, s.heads * s.dimPerHead)
    requires b < batch && h < s.heads && l < len && e < s.dimPerHead
    ensures h * s.dimPerHead + e < s.heads * s.dimPerHead
    ensures SplitHeads(x, batch, len, s)[b][h][l][e] == x[b][l][h * s.dimPerHead + e]
  {
    ChunkAt(x[b][l], s.heads, s.dimPerHead, h, e);
  }

  lemma Is3Ext<T>(x: Tensor3<T>, y: Tensor3<T>, d0: nat, d1: nat, d2: nat)
    requires Is3(x, d0, d1, d2) && Is3(y, d0, d1, d2)
    requires forall a, i, j :: 0 <= a < d0 && 0 <= i < d1 && 0 <= j < d2 ==> x[a][i][j] == y[a][i][j]
    ensures x == y
  {
    forall a | 0 <= a < d0 ensures x[a] == y[a] {
      forall i | 0 <= i < d1 ensures x[a][i] == y[a][i] {
      }
    }
  }

  lemma Is4Ext<T>(x: Tensor4<T>, y: Tensor4<T>, d0: nat, d1: nat, d2: nat, d3: nat)
    requires Is4(x, d0, d1, d2, d3) && Is4(y, d0, d1, d2, d3)
    requires forall a, i, j, k :: 0 <= a < d0 && 0 <= i < d1 && 0 <= j < d2 && 0 <= k < d3 ==>
               x[a][i][j][k] == y[a][i][j][k]
    ensures x == y
  {
    forall a | 0 <= a < d0 ensures x[a] == y[a] {
      Is3Ext(x[a], y[a], d1, d2, d3);
    }
  }

  /** Merging the heads of a split returns the original projection,
      element for element. */
  lemma {:induction false} MergeAfterSplit<T>(x: Tensor3<T>, batch: nat, len: nat, s: HeadShape)
    requires Is3(x, batch, len, s.heads * s.dimPerHead)
    ensures MergeHeads(SplitHeads(x, batch, len, s), batch, len, s) == x
  {
    var d := s.dimPerHead;
    var v := ViewHeads(x, batch, len, s.heads, d);
    var y := SplitHeads(x, batch, len, s);
    var t := Transpose12(y, batch, s.heads, len, d);
    Is4Ext(t, v, batch, len, s.heads, d);
    var z := MergeHeads(y, batch, len, s);
    forall b, l | 0 <= b < batch && 0 <= l < len ensures z[b][l] == x[b][l] {
      ConcatOfChunk(x[b][l], s.heads, d);
    }
    forall b | 0 <= b < batch ensures z[b] == x[b] {
    }
  }

  /** Splitting a merge returns the original per-head values. */
  lemma {:induction false} SplitAfterMerge<T>(y: Tensor4<T>, batch: nat, len: nat, s: HeadShape)
    requires Is4(y, batch, s.heads, len, s.dimPerHead)
    ensures SplitHeads(MergeHeads(y, batch, len, s), batch, len, s) == y
  {
    var d := s.dimPerHead;
    var t := Transpose12(y, batch, s.heads, len, d);
    var x := MergeHeads(y, batch, len, s);
    var v := ViewHeads(x, batch, len, s.heads, d);
    forall b, l | 0 <= b < batch && 0 <= l < len ensures v[b][l] == t[b][l] {
      ChunkOfConcat(t[b][l], d);
    }
    Is4Ext(v, t, batch, len, s.heads, d);
    var z := SplitHeads(x, batch, len, s);
    Is4Ext(z, y, batch, s.heads, len, d);
  }

  /** A configured head layout splits every projection of width model_dim. */
  lemma {:induction false} ConfiguredSplitMerge<T>(modelDim: nat, headCount: nat, x: Tensor3<T>, batch: nat, len: nat)
    requires Is3(x, batch, len, modelDim)
    requires Configure(modelDim, headCount).Ok?
    ensures var s := Configure(modelDim, headCount).value;
            Is3(x, batch, len, s.heads * s.dimPerHead) &&
            Is4(SplitHeads(x, batch, len, s), batch, headCount, len, modelDim / headCount) &&
            MergeHeads(SplitHeads(x, batch, len, s), batch, len, s) == x
  {
    var s := Configure(modelDim, headCount).value;
    MergeAfterSplit(x, batch, len, s);
  }
}
