/** The speaker-index fix-up at the start of `forward` in both models.

    Each utterance's speaker is the arg-max of its one-hot speaker row.
    Then, for every dialogue i of true length x, the positions x, x+1, ...
    of row i are overwritten in place with the reserved padding index,
    which equals the number of speakers (2 or 9). */
module Speakers {
  import opened Tensors

  /** `torch.argmax` over one row: the first index holding the largest
      value. */
  function ArgMax(row: seq<real>): (k: nat)
    requires |row| > 0
    ensures k < |row|
    ensures forall j :: 0 <= j < |row| ==> row[j] <= row[k]
    ensures forall j :: 0 <= j < k ==> row[j] < row[k]
  {
    if |row| == 1 then 0
    else
      var k' := ArgMax(row[..|row| - 1]);
      if row[k'] < row[|row| - 1] then |row| - 1 else k'
  }

  /** `row` is the one-hot indicator of speaker s. */
  predicate OneHot(row: seq<real>, s: nat) {
    s < |row| && row[s] == 1.0 && forall j :: 0 <= j < |row| && j != s ==> row[j] == 0.0
  }

  /** The arg-max of a one-hot row is the speaker it marks. */
  lemma ArgMaxOfOneHot(row: seq<real>, s: nat)
    requires OneHot(row, s)
    ensures ArgMax(row) == s
  {
  }

  /** The padding index the constructor chooses: it is bound only for two
      and for nine speakers. */
  function PaddingIndex(nSpeakers: nat): (p: nat)
    requires nSpeakers == 2 || nSpeakers == 9
    ensures p == nSpeakers
  {
    if nSpeakers == 2 then 2 else 9
  }

  /** A (batch, length, speakers) indicator tensor with non-empty speaker
      rows, of sequence length `len`. */
  predicate WellShaped(qmask: Tensor3<real>, len: nat) {
    forall b :: 0 <= b < |qmask| ==>
      |qmask[b]| == len && forall p :: 0 <= p < len ==> |qmask[b][p]| > 0
  }

  /** Every true length is a position in 0 .. len of its own dialogue row;
      any other value makes the slice assignment raise. */
  predicate LengthsFit(diaLen: seq<int>, batch: nat, len: nat) {
    |diaLen| <= batch && forall i :: 0 <= i < |diaLen| ==> 0 <= diaLen[i] <= len
  }

  /** The speaker index the fix-up leaves at position p of dialogue b. */
  function SpeakerAt(qmask: Tensor3<real>, len: nat, diaLen: seq<int>, pad: int, b: nat, p: nat): int
    requires WellShaped(qmask, len) && b < |qmask| && p < len
  {
    if b < |diaLen| && diaLen[b] <= p then pad else ArgMax(qmask[b][p])
  }

  /** `spk_idx[i, x:] = pad`: one slice of row i, written in place. */
  method FillRowFrom(spk: array2<int>, i: nat, x: nat, pad: int)
    requires i < spk.Length0 && x <= spk.Length1
    modifies spk
    ensures forall b, p :: 0 <= b < spk.Length0 && 0 <= p < spk.Length1 ==>
              spk[b, p] == if b == i && x <= p then pad else old(spk[b, p])
  {
    for p := x to spk.Length1
      invariant forall b, q :: 0 <= b < spk.Length0 && 0 <= q < spk.Length1 ==>
                  spk[b, q] == if b == i && x <= q < p then pad else old(spk[b, q])
    {
      spk[i, p] := pad;
    }
  }

  /** The loop over `enumerate(dia_len)`: every position at or beyond its
      dialogue's true length is overwritten with `pad`, nothing else
      changes. */
  method PadBeyondLength(spk: array2<int>, diaLen: seq<int>, pad: int)
    requires LengthsFit(diaLen, spk.Length0, spk.Length1)
    modifies spk
    ensures forall b, p :: 0 <= b < spk.Length0 && 0 <= p < spk.Length1 ==>
              spk[b, p] == if b < |diaLen| && diaLen[b] <= p then pad else old(spk[b, p])
  {
    for i := 0 to |diaLen|
      invariant forall b, p :: 0 <= b < spk.Length0 && 0 <= p < spk.Length1 ==>
                  spk[b, p] == if b < i && diaLen[b] <= p then pad else old(spk[b, p])
    {
      FillRowFrom(spk, i, diaLen[i], pad);
    }
  }

  /** The speaker indices `forward` hands to the speaker embedding: the
      arg-max of every indicator row, with the positions beyond each
      dialogue's true length replaced by the padding index. The result has
      the (batch, length) shape of the indicator tensor. */
  method SpeakerIndices(qmask: Tensor3<real>, len: nat, diaLen: seq<int>, nSpeakers: nat)
    returns (spk: array2<int>)
    requires nSpeakers == 2 || nSpeakers == 9
    requires WellShaped(qmask, len) && LengthsFit(diaLen, |qmask|, len)
    ensures fresh(spk)
    ensures spk.Length0 == |qmask| && spk.Length1 == len
    ensures forall b, p :: 0 <= b < |qmask| && 0 <= p < len ==>
              spk[b, p] == SpeakerAt(qmask, len, diaLen, nSpeakers, b, p)
  {
    spk := new int[|qmask|, len]((b, p) requires 0 <= b < |qmask| && 0 <= p < len =>
                                   ArgMax(qmask[b][p]));
    if nSpeakers == 2 {
      PadBeyondLength(spk, diaLen, 2);
    }
    if nSpeakers == 9 {
      PadBeyondLength(spk, diaLen, 9);
    }
  }

  /** When the speaker rows have one entry per speaker, the padding index
      appears exactly at the positions at or beyond a dialogue's true
      length: it never collides with a real speaker, and dialogues without
      a length entry never hold it. */
  lemma {:induction false} PaddingExactlyBeyondLength(qmask: Tensor3<real>, len: nat, diaLen: seq<int>,
                                                      nSpeakers: nat, b: nat, p: nat)
    requires nSpeakers == 2 || nSpeakers == 9
    requires WellShaped(qmask, len) && LengthsFit(diaLen, |qmask|, len)
    requires b < |qmask| && p < len && |qmask[b][p]| == nSpeakers
    ensures SpeakerAt(qmask, len, diaLen, PaddingIndex(nSpeakers), b, p) == nSpeakers <==>
              b < |diaLen| && diaLen[b] <= p
  {
    if !(b < |diaLen| && diaLen[b] <= p) {
      assert ArgMax(qmask[b][p]) < |qmask[b][p]|;
    }
  }

  /** Inside a dialogue, the fixed-up index of a one-hot row is the speaker
      it marks. */
  lemma {:induction false} SpeakerInsideDialogue(qmask: Tensor3<real>, len: nat, diaLen: seq<int>,
                                                 nSpeakers: nat, b: nat, p: nat, s: nat)
    requires nSpeakers == 2 || nSpeakers == 9
    requires WellShaped(qmask, len) && LengthsFit(diaLen, |qmask|, len)
    requires b < |qmask| && p < len && OneHot(qmask[b][p], s)
    requires b >= |diaLen| || p < diaLen[b]
    ensures SpeakerAt(qmask, len, diaLen, PaddingIndex(nSpeakers), b, p) == s
  {
    ArgMaxOfOneHot(qmask[b][p], s);
  }
}
