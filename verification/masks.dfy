/** Which attention scores a transformer stack hides, and how.

    A stack builds one disallow mask per call (true = the key may not be
    seen): in realtime mode the complement of a lower-triangular causal
    mask AND-ed with the per-dialogue padding mask, in offline mode the
    complement of the padding mask alone. Each layer and the attention
    module insert axes of size one, and the attention module broadcasts
    the result over (batch, head, query, key) and overwrites the hidden
    scores with a large negative constant. */
module Masks {
  import opened Tensors

  /** The operating mode of a stack: streaming (causal) or offline. */
  datatype Setting = Realtime | Offline

  /** The setting selector: the exact string "realtime" selects streaming
      mode, every other string offline mode. */
  function ParseSetting(s: string): (r: Setting)
    ensures r == Realtime <==> s == "realtime"
    ensures r == Offline <==> s != "realtime"
  {
    if s == "realtime" then Realtime else Offline
  }

  /** The value a hidden score is overwritten with. */
  const FillValue: real := -10000000000.0

  /** A boolean n-by-n matrix of ones. */
  function Ones(n: nat): (r: Mat<bool>)
    ensures IsMat(r, n, n)
  {
    seq(n, i => seq(n, j => true))
  }

  /** `tril`: keeps the entries on and below the main diagonal and clears
      the others. */
  function Tril(m: Mat<bool>): (r: Mat<bool>)
    ensures |r| == |m| && forall i :: 0 <= i < |m| ==> |r[i]| == |m[i]|
    ensures forall i, j :: 0 <= i < |m| && 0 <= j < |m[i]| && i < j ==> !r[i][j]
    ensures forall i, j :: 0 <= i < |m| && 0 <= j < |m[i]| && j <= i ==> r[i][j] == m[i][j]
  {
    seq(|m|, i requires 0 <= i < |m| => seq(|m[i]|, j requires 0 <= j < |m[i]| => j <= i && m[i][j]))
  }

  /** `generate_causal_mask`: query i may see key j exactly when j <= i. */
  function CausalMask(n: nat): (r: Mat<bool>)
    ensures IsMat(r, n, n)
    ensures forall i, j :: 0 <= i < n && 0 <= j < n ==> (r[i][j] <==> j <= i)
  {
    Tril(Ones(n))
  }

  /** The causal mask is lower-triangular, not symmetric: from two
      positions on, an earlier query never sees a later key although the
      later query sees the earlier key. */
  lemma CausalMaskNotSymmetric(n: nat)
    requires n >= 2
    ensures CausalMask(n)[1][0] && !CausalMask(n)[0][1]
  {
  }

  /** `mask.bool()`: a nonzero entry is true. */
  function NonZero(mask: Mat<real>): (r: Mat<bool>)
    ensures |r| == |mask| && forall b :: 0 <= b < |mask| ==> |r[b]| == |mask[b]|
    ensures forall b, j :: 0 <= b < |mask| && 0 <= j < |mask[b]| ==> (r[b][j] <==> mask[b][j] != 0.0)
  {
    seq(|mask|, b requires 0 <= b < |mask| =>
      seq(|mask[b]|, j requires 0 <= j < |mask[b]| => mask[b][j] != 0.0))
  }

  /** `mask.eq(0)` on the real-valued padding mask. */
  function IsZero(mask: Mat<real>): (r: Mat<bool>)
    ensures |r| == |mask| && forall b :: 0 <= b < |mask| ==> |r[b]| == |mask[b]|
    ensures forall b, j :: 0 <= b < |mask| && 0 <= j < |mask[b]| ==> (r[b][j] <==> mask[b][j] == 0.0)
  {
    seq(|mask|, b requires 0 <= b < |mask| =>
      seq(|mask[b]|, j requires 0 <= j < |mask[b]| => mask[b][j] == 0.0))
  }

  /** `t.eq(0)` on a boolean tensor: the complement of every entry. */
  function Not3(t: Tensor3<bool>, d0: nat, d1: nat, d2: nat): (r: Tensor3<bool>)
    requires Is3(t, d0, d1, d2)
    ensures Is3(r, d0, d1, d2)
    ensures forall i, j, k :: 0 <= i < d0 && 0 <= j < d1 && 0 <= k < d2 ==> r[i][j][k] == !t[i][j][k]
  {
    seq(d0, i requires 0 <= i < d0 =>
      seq(d1, j requires 0 <= j < d1 =>
        seq(d2, k requires 0 <= k < d2 => !t[i][j][k])))
  }

  /** `x & y` with broadcasting to shape (d0, d1, d2). */
  function And3(x: Tensor3<bool>, y: Tensor3<bool>, d0: nat, d1: nat, d2: nat): (r: Tensor3<bool>)
    requires Broadcastable3(x, d0, d1, d2) && Broadcastable3(y, d0, d1, d2)
    ensures Is3(r, d0, d1, d2)
    ensures forall i, j, k :: 0 <= i < d0 && 0 <= j < d1 && 0 <= k < d2 ==>
              r[i][j][k] == (At3(x, d0, d1, d2, i, j, k) && At3(y, d0, d1, d2, i, j, k))
  {
    var ex := Expand3(x, d0, d1, d2);
    var ey := Expand3(y, d0, d1, d2);
    seq(d0, i requires 0 <= i < d0 =>
      seq(d1, j requires 0 <= j < d1 =>
        seq(d2, k requires 0 <= k < d2 => ex[i][j][k] && ey[i][j][k])))
  }

  /** The disallow mask a stack builds: one row of keys per dialogue
      (offline), or one key row per dialogue and query (realtime). */
  datatype Disallow = KeyMask(keys: Mat<bool>) | QueryKeyMask(cells: Tensor3<bool>)

  /** The two shapes of `Disallow` belong to the two settings. */
  predicate BuiltFor(setting: Setting, d: Disallow) {
    d.QueryKeyMask? <==> setting == Realtime
  }

  /** The causal mask with a leading batch axis broadcasts to every batch
      size, and every batch entry reads the causal mask itself. */
  lemma CausalBroadcast(n: nat, batch: nat)
    ensures Broadcastable3(Unsqueeze0(CausalMask(n)), batch, n, n)
    ensures forall b, i, j :: 0 <= b < batch && 0 <= i < n && 0 <= j < n ==>
              At3(Unsqueeze0(CausalMask(n)), batch, n, n, b, i, j) == CausalMask(n)[i][j]
  {
    var c := Unsqueeze0(CausalMask(n));
    assert c[0] == CausalMask(n);
    forall b, i, j | 0 <= b < batch && 0 <= i < n && 0 <= j < n
      ensures At3(c, batch, n, n, b, i, j) == CausalMask(n)[i][j]
    {
      assert Pick(|c|, b) == 0;
      assert Pick(n, i) == i && Pick(n, j) == j;
    }
  }

  /** The padding mask with a query axis broadcasts over the queries, and
      entry (b, i, j) reads whether key j of dialogue b is a real
      utterance. */
  lemma PaddingBroadcast(mask: Mat<real>, n: nat)
    requires IsMat(mask, |mask|, n)
    ensures Broadcastable3(Unsqueeze1(NonZero(mask)), |mask|, n, n)
    ensures forall b, i, j :: 0 <= b < |mask| && 0 <= i < n && 0 <= j < n ==>
              At3(Unsqueeze1(NonZero(mask)), |mask|, n, n, b, i, j) == (mask[b][j] != 0.0)
  {
    var nz := NonZero(mask);
    var p := Unsqueeze1(nz);
    forall b, i, j | 0 <= b < |mask| && 0 <= i < n && 0 <= j < n
      ensures At3(p, |mask|, n, n, b, i, j) == (mask[b][j] != 0.0)
    {
      assert p[b] == [nz[b]];
      assert Pick(|p|, b) == b && Pick(1, i) == 0 && Pick(n, j) == j;
    }
  }

  /** The realtime branch: `(causal.unsqueeze(0) & mask.unsqueeze(1).bool())`
      broadcast to (batch, query, key), then complemented. */
  function RealtimeMask(mask: Mat<real>, seqLen: nat): (r: Tensor3<bool>)
    requires IsMat(mask, |mask|, seqLen)
    ensures Is3(r, |mask|, seqLen, seqLen)
    ensures forall b, i, j :: 0 <= b < |mask| && 0 <= i < seqLen && 0 <= j < seqLen ==>
              r[b][i][j] == !(CausalMask(seqLen)[i][j] && mask[b][j] != 0.0)
  {
    CausalBroadcast(seqLen, |mask|);
    PaddingBroadcast(mask, seqLen);
    var causal := Unsqueeze0(CausalMask(seqLen));     // (1, L, L)
    var padding := Unsqueeze1(NonZero(mask));         // (B, 1, L)
    Not3(And3(causal, padding, |mask|, seqLen, seqLen), |mask|, seqLen, seqLen)
  }

  /** The mask construction at the top of `TransformerEncoder.forward`.
      `mask` is the (batch, length) utterance mask, `seqLen` the length
      of the stack's input sequences. */
  function EncoderMask(setting: Setting, mask: Mat<real>, seqLen: nat): (r: Disallow)
    requires IsMat(mask, |mask|, seqLen)
    ensures BuiltFor(setting, r)
    ensures r.QueryKeyMask? ==>
              && Is3(r.cells, |mask|, seqLen, seqLen)
              && forall b, i, j :: 0 <= b < |mask| && 0 <= i < seqLen && 0 <= j < seqLen ==>
                   r.cells[b][i][j] == !(CausalMask(seqLen)[i][j] && mask[b][j] != 0.0)
    ensures r.KeyMask? ==>
              && IsMat(r.keys, |mask|, seqLen)
              && forall b, j :: 0 <= b < |mask| && 0 <= j < seqLen ==>
                   (r.keys[b][j] <==> mask[b][j] == 0.0)
  {
    if setting == Realtime then
      QueryKeyMask(RealtimeMask(mask, seqLen))
    else
      KeyMask(IsZero(mask))
  }

  /** The unsqueeze in `TransformerEncoderLayer.forward`: offline masks gain
      a query axis of size one, realtime masks pass unchanged. */
  function LayerMask(setting: Setting, d: Disallow): (r: Tensor3<bool>)
    requires BuiltFor(setting, d)
    ensures setting == Realtime ==> r == d.cells
    ensures setting == Offline ==> |r| == |d.keys| && forall b :: 0 <= b < |r| ==> r[b] == [d.keys[b]]
  {
    if setting != Realtime then Unsqueeze1(d.keys) else d.cells
  }

  /** `mask.unsqueeze(1).expand_as(scores)` in `MultiHeadedAttention.forward`,
      for scores of shape (batch, heads, queries, keys). */
  function AttentionMask(m: Tensor3<bool>, batch: nat, heads: nat, queries: nat, keys: nat): (r: Tensor4<bool>)
    requires Broadcastable3(m, batch, queries, keys)
    ensures Is4(r, batch, heads, queries, keys)
    ensures forall b, h, i, j :: 0 <= b < batch && 0 <= h < heads && 0 <= i < queries && 0 <= j < keys ==>
              r[b][h][i][j] == At3(m, batch, queries, keys, b, i, j)
  {
    var u: Tensor4<bool> := Unsqueeze1(m);   // (batch, 1, queries, keys)
    assert Broadcastable4(u, batch, heads, queries, keys) by {
      forall b | 0 <= b < |u| ensures Broadcastable3(u[b], heads, queries, keys) {
        assert u[b] == [m[b]];
      }
    }
    Expand4(u, batch, heads, queries, keys)
  }

  /** `scores.masked_fill(mask, value)`. */
  function MaskedFill(scores: Tensor4<real>, m: Tensor4<bool>, value: real,
                      d0: nat, d1: nat, d2: nat, d3: nat): (r: Tensor4<real>)
    requires Is4(scores, d0, d1, d2, d3) && Is4(m, d0, d1, d2, d3)
    ensures Is4(r, d0, d1, d2, d3)
    ensures forall b, h, i, j :: 0 <= b < d0 && 0 <= h < d1 && 0 <= i < d2 && 0 <= j < d3 ==>
              r[b][h][i][j] == if m[b][h][i][j] then value else scores[b][h][i][j]
  {
    seq(d0, b requires 0 <= b < d0 =>
      seq(d1, h requires 0 <= h < d1 =>
        seq(d2, i requires 0 <= i < d2 =>
          seq(d3, j requires 0 <= j < d3 =>
            if m[b][h][i][j] then value else scores[b][h][i][j]))))
  }

  /** The masking step of `MultiHeadedAttention.forward`: without a mask the
      scores pass through, with one the hidden scores are overwritten. */
  function MaskScores(scores: Tensor4<real>, mask: Option<Tensor3<bool>>,
                      batch: nat, heads: nat, queries: nat, keys: nat): (r: Tensor4<real>)
    requires Is4(scores, batch, heads, queries, keys)
    requires mask.Some? ==> Broadcastable3(mask.value, batch, queries, keys)
    ensures Is4(r, batch, heads, queries, keys)
    ensures mask.None? ==> r == scores
  {
    match mask
    case None => scores
    case Some(m) =>
      MaskedFill(scores, AttentionMask(m, batch, heads, queries, keys), FillValue,
                 batch, heads, queries, keys)
  }

  /** The reference policy: key j is hidden from query i of dialogue b when
      it is padding, and in realtime mode also when it lies in the future. */
  predicate Disallowed(setting: Setting, mask: Mat<real>, b: nat, i: nat, j: nat)
    requires b < |mask| && j < |mask[b]|
  {
    (setting == Realtime && i < j) || mask[b][j] == 0.0
  }

  /** The mask every layer of a stack over sequences of length `seqLen`
      passes to attention; it fits the (batch, queries, keys) score shape. */
  function StackMask(setting: Setting, mask: Mat<real>, seqLen: nat): (r: Tensor3<bool>)
    requires IsMat(mask, |mask|, seqLen)
    ensures Broadcastable3(r, |mask|, seqLen, seqLen)
  {
    var d := EncoderMask(setting, mask, seqLen);
    var m := LayerMask(setting, d);
    assert Broadcastable3(m, |mask|, seqLen, seqLen) by {
      if setting == Offline {
        forall b | 0 <= b < |m|
          ensures Fits(|m[b]|, seqLen) && forall i :: 0 <= i < |m[b]| ==> Fits(|m[b][i]|, seqLen)
        {
          assert m[b] == [d.keys[b]];
        }
      }
    }
    m
  }

  /** After every unsqueeze and the broadcast over heads, the attention mask
      hides exactly the cells the reference policy disallows, in both
      settings. */
  lemma {:induction false} AttentionMaskExact(setting: Setting, mask: Mat<real>, seqLen: nat, heads: nat)
    requires IsMat(mask, |mask|, seqLen)
    ensures var m := AttentionMask(StackMask(setting, mask, seqLen), |mask|, heads, seqLen, seqLen);
            && Is4(m, |mask|, heads, seqLen, seqLen)
            && forall b, h, i, j :: 0 <= b < |mask| && 0 <= h < heads && 0 <= i < seqLen && 0 <= j < seqLen ==>
                 (m[b][h][i][j] <==> Disallowed(setting, mask, b, i, j))
  {
    var lm := StackMask(setting, mask, seqLen);
    var m := AttentionMask(lm, |mask|, heads, seqLen, seqLen);
    forall b, h, i, j | 0 <= b < |mask| && 0 <= h < heads && 0 <= i < seqLen && 0 <= j < seqLen
      ensures m[b][h][i][j] <==> Disallowed(setting, mask, b, i, j)
    {
      StackMaskAt(setting, mask, seqLen, b, i, j);
    }
  }

  /** Entry (b, i, j) of a layer's mask, read through broadcasting, is the
      reference policy. */
  lemma StackMaskAt(setting: Setting, mask: Mat<real>, seqLen: nat, b: nat, i: nat, j: nat)
    requires IsMat(mask, |mask|, seqLen) && b < |mask| && i < seqLen && j < seqLen
    ensures At3(StackMask(setting, mask, seqLen), |mask|, seqLen, seqLen, b, i, j) <==> Disallowed(setting, mask, b, i, j)
  {
    var d := EncoderMask(setting, mask, seqLen);
    var lm := StackMask(setting, mask, seqLen);
    if setting == Realtime {
      assert At3(lm, |mask|, seqLen, seqLen, b, i, j) == d.cells[b][i][j];
      assert CausalMask(seqLen)[i][j] <==> j <= i;
    } else {
      assert lm[b] == [d.keys[b]];
      assert At3(lm, |mask|, seqLen, seqLen, b, i, j) == d.keys[b][j];
    }
  }

  /** The masking step overwrites exactly the disallowed scores with the fill
      value and leaves every other score as it was. */
  lemma {:induction false} ScoresMaskedExactly(setting: Setting, mask: Mat<real>, seqLen: nat,
                                               heads: nat, scores: Tensor4<real>)
    requires IsMat(mask, |mask|, seqLen)
    requires Is4(scores, |mask|, heads, seqLen, seqLen)
    ensures var r := MaskScores(scores, Some(StackMask(setting, mask, seqLen)), |mask|, heads, seqLen, seqLen);
            forall b, h, i, j :: 0 <= b < |mask| && 0 <= h < heads && 0 <= i < seqLen && 0 <= j < seqLen ==>
              r[b][h][i][j] == if Disallowed(setting, mask, b, i, j) then FillValue else scores[b][h][i][j]
  {
    AttentionMaskExact(setting, mask, seqLen, heads);
  }

  /** Offline, the attention mask is the same key row for every head and
      every query of a dialogue: no causal restriction. */
  lemma {:induction false} OfflineRowsShared(mask: Mat<real>, seqLen: nat, heads: nat,
                                             b: nat, h: nat, h': nat, i: nat, i': nat)
    requires IsMat(mask, |mask|, seqLen)
    requires b < |mask| && h < heads && h' < heads && i < seqLen && i' < seqLen
    ensures var m := AttentionMask(StackMask(Offline, mask, seqLen), |mask|, heads, seqLen, seqLen);
            m[b][h][i] == m[b][h'][i']
  {
    AttentionMaskExact(Offline, mask, seqLen, heads);
  }

  /** Realtime, a valid utterance always sees itself, so no valid query row
      is hidden entirely. */
  lemma {:induction false} RealtimeSelfVisible(mask: Mat<real>, seqLen: nat, heads: nat, b: nat, h: nat, i: nat)
    requires IsMat(mask, |mask|, seqLen)
    requires b < |mask| && h < heads && i < seqLen && mask[b][i] != 0.0
    ensures var m := AttentionMask(StackMask(Realtime, mask, seqLen), |mask|, heads, seqLen, seqLen);
            !m[b][h][i][i] && forall j :: i < j < seqLen ==> m[b][h][i][j]
  {
    AttentionMaskExact(Realtime, mask, seqLen, heads);
  }
}
