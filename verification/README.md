# SDT attention-and-masking core in Dafny

This project models the discrete core of `model.py`, the multimodal
emotion-recognition network (SDT). Text, audio and visual utterance
features pass through nine pairwise transformer stacks (three self,
six cross), then gates and classifiers. The floating-point arithmetic is
out of scope. What is modelled is the part that decides **what may see
what** and **which computation runs**:

- `tensors.dfy` (module `Tensors`): tensors as nested sequences, shape
  predicates, `unsqueeze` and torch-style broadcasting (`expand`).
- `masks.dfy` (module `Masks`): the mask pipeline.
  - `generate_causal_mask`.
  - The disallow mask built at the top of `TransformerEncoder.forward`: realtime is causal AND padding, inverted; offline is the padding mask inverted.
  - The extra axis `TransformerEncoderLayer.forward` adds offline.
  - The `unsqueeze(1).expand_as(scores)` and `masked_fill(mask, -1e10)` of `MultiHeadedAttention.forward`.
  - The exact (batch, head, query, key) cells hidden in each mode.
- `heads.dfy` (module `Heads`): the constructor's divisibility check. It also has the view/transpose that splits projections into heads and the transpose/view that merges them. Both round trips are proved.
- `speakers.dfy` (module `Speakers`): the speaker-index fix-up at the start of both models' `forward`. Each speaker is the arg-max of its one-hot row. Positions at or beyond a dialogue's true length are overwritten in place with the padding index 2 or 9. This module is imperative, on an `array2`.
- `encoder.dfy` (module `Encoder`): the control flow of a stack and its layers. A stack's result is a symbolic `Term` recording which operation ran on which operands. `EncoderForward` is the layer loop, proved equal to the recursive `Stack`. Lemmas state:
  - the encoding runs once, before the layers;
  - layer i normalises its context only when i ≠ 0;
  - the self path attends (b', b', b') and the cross path (a, a, b'), where the query b' of every layer is that layer's context input;
  - the running target starts from the encoded target input and threads through layers 0..n-1 in order;
  - every attention gets the one mask the stack built.
- `dispatch.dfy` (module `Dispatch`): the modality selector at the end of both models' `forward`. It decides which pairwise outputs are concatenated for each target, in what order, which gate arity runs, and which tensors are returned (5/5/7/9). All of this is proved against an independent reference policy.

Two inputs are parameters: the modality features, which are abstract values of a type `X`, and the strings `setting` and `modality`.

## Model

| member | source | states |
|---|---|---|
| Masks.ParseSetting | model.py:185-191 | the realtime branch is taken exactly for the string "realtime"; every other string is offline |
| Masks.CausalMask | model.py:164-165 | an n×n matrix whose entry (i, j) is true exactly when j ≤ i |
| Masks.CausalMaskNotSymmetric | model.py:164-165 | from n = 2 on the causal mask is not symmetric: (1, 0) is visible, (0, 1) is not |
| Masks.RealtimeMask | model.py:186-189 | causal mask with a batch axis AND padding mask with a query axis, broadcast to (batch, L, L) and complemented: cell (b, i, j) is ¬(j ≤ i ∧ mask[b][j] ≠ 0) |
| Masks.EncoderMask | model.py:185-191 | realtime gives a (batch, L, L) mask with cell ¬(causal ∧ padding); offline gives a (batch, L) mask true exactly where mask[b][j] == 0; the mask's shape belongs to its setting |
| Masks.StackMask | model.py:145-146 | after the layer's offline unsqueeze, the mask broadcasts to the (batch, queries, keys) score shape in both settings |
| Masks.LayerMask | model.py:145-146 | offline, each dialogue's key row gains a query axis of size one (the same unsqueeze at model.py:154-155 on the cross path); realtime masks pass unchanged |
| Masks.AttentionMask | model.py:97-99 | unsqueeze(1) plus expand_as gives shape (batch, heads, queries, keys); every head reads the same broadcast cell of the layer mask |
| Masks.AttentionMaskExact | model.py:97-99 | the mask attention applies hides cell (b, h, i, j) exactly when key j is padding or, in realtime mode, lies after query i |
| Masks.MaskedFill | model.py:100 | the result keeps the score shape; each cell is the fill value where the mask is set and the original score where it is not |
| Masks.MaskScores | model.py:97-100 | without a mask the scores pass through unchanged; the shape is kept either way |
| Masks.ScoresMaskedExactly | model.py:97-100 | masked_fill sets exactly the disallowed score cells to -1e10 and leaves every other cell as it was |
| Masks.OfflineRowsShared | model.py:190-191 | offline, every head and every query of a dialogue gets the same key row: no causal restriction |
| Masks.RealtimeSelfVisible | model.py:185-189 | realtime, a valid utterance always sees itself and never a later utterance |
| Heads.Configure | model.py:62-63 | zero heads is an error (the modulo by zero); with heads, a non-divisor is the assertion error and nothing else; otherwise Ok exactly when head_count divides model_dim, with heads × dim_per_head = model_dim; Err means no such dim_per_head exists |
| Heads.SplitHeads | model.py:90-92 | view then transpose(1, 2) turns a (batch, len, heads·d) projection into a (batch, heads, len, d) tensor; where each element lands is stated by Heads.SplitHeadsAt |
| Heads.MergeHeads | model.py:104-105 | transpose(1, 2) then view turns (batch, heads, len, d) back into (batch, len, heads·d); the round trips are Heads.MergeAfterSplit and Heads.SplitAfterMerge |
| Heads.SplitHeadsAt | model.py:90-92 | after the split, element (b, h, l, e) is feature h·dim_per_head + e of position l of the projection |
| Heads.MergeAfterSplit | model.py:104-105 | merging the heads of a split returns the projection element for element |
| Heads.SplitAfterMerge | model.py:81-88 | splitting a merge returns the per-head values element for element |
| Heads.ConfiguredSplitMerge | model.py:62-63 | a configured layout accepts every projection of width model_dim, splits it into heads of width model_dim / head_count, and merges back to it |
| Speakers.ArgMax | model.py:375 | the index of a maximal entry, and the first such index |
| Speakers.ArgMaxOfOneHot | model.py:375 | the arg-max of a one-hot row is the speaker it marks |
| Speakers.PaddingIndex | model.py:300-304 | the padding index is the speaker count, for 2 and 9 speakers |
| Speakers.FillRowFrom | model.py:379 | positions x.. of row i become the padding index; every other cell is unchanged |
| Speakers.PadBeyondLength | model.py:378-382 | every position at or beyond its dialogue's true length becomes the padding index; every other cell is unchanged |
| Speakers.SpeakerIndices | model.py:375-382 | the result is a fresh array with the (batch, length) shape of the indicator; each cell is the padding index beyond the dialogue's length and the row's arg-max otherwise; the realtime model variant repeats this fix-up unchanged at lines 587-594 |
| Speakers.PaddingExactlyBeyondLength | model.py:377-382 | with one indicator entry per speaker, a cell holds the padding index exactly when its dialogue has a length entry and the cell lies at or beyond it; dialogues the loop does not reach never hold it |
| Speakers.SpeakerInsideDialogue | model.py:375-382 | inside a dialogue, the fixed-up index of a one-hot row is its speaker |
| Encoder.LayerInput | model.py:139-142 | layer 0 uses its context input as is; every other layer i normalises it with its own layer norm |
| Encoder.Attention | model.py:147-156 | self path: key = value = query = the layer's context; cross path: key = value = the source, query = the context; the given mask is passed on |
| Encoder.EncoderForward | model.py:193-204 | the layer loop, which reassigns the running target, computes `Encoder.Stack`: the mask, the encoding, then `Encoder.LayerForward` (model.py:137-159) applied for layers 0..n-1; the Stack lemmas below state what that computation does |
| Encoder.StackEncodesOnce | model.py:193-202 | every input reaches the computation through exactly one encoding applied directly to it, for any number of layers |
| Encoder.StackNormsAllButFirst | model.py:139-152 | in a stack of n layers, the layer norms of layers 1..n-1 run and no other |
| Encoder.StackThreadsTarget | model.py:196-204 | the running target starts from the encoded target input and passes through layers 0, 1, …, n-1, each once and in order; layer i's normalised context is taken only from layer i's own norm |
| Encoder.StackAttentionOperands | model.py:137-159 | in the layers `Encoder.LayerForward` builds, the self path attends (b', b', b') in every layer; the cross path attends (a, a, b') with the same encoded source a in every layer; on both paths the query b' of layer i is the residual's skip, the layer's context input, which for i ≠ 0 is the output of layer i's own layer norm |
| Encoder.StackMasksEveryLayer | model.py:182-204 | every attention of every layer gets the one mask built before the loop, and that mask hides exactly the disallowed cells |
| Dispatch.ParseSelection | model.py:416-471 | "t", "a" and "at" select their branches exactly; every other string selects the full text-audio-visual branch |
| Dispatch.KindOf | model.py:391-401 | a pairwise stack takes the self path exactly when its source modality is its target |
| Dispatch.DispatchFollowsPolicy | model.py:416-497 | `Dispatch.Forward`, the selector branches, follows the reference policy for every string: each branch performs one reduction per present modality in t, a, v order; each reduction concatenates the self pair first, then the other present sources in order; the gate's arity is the number of reductions; the outputs are per-modality log-probabilities, joint log-probabilities and probabilities, then their temperature-scaled versions |
| Dispatch.OutputCount | model.py:416-497 | "t" and "a" return 5 tensors, "at" 7, any other string 9; always twice the number of reductions plus 3 |
| Dispatch.PolicyReductionWellFormed | model.py:450-474 | a reduction of the reference policy starts with its self pair, uses only stacks into its target, and no source twice |
| Dispatch.EveryPairRuns | model.py:391-401 | the nine stacks `forward` runs before the selector, whatever the selector says, are the nine (source, target) pairs of modalities, each exactly once |
| Dispatch.ReductionsWellFormed | model.py:416-475 | every reduction of every branch is well formed: self pair first, only stacks into its target, no source twice |
| Dispatch.FullPathUsesEveryPair | model.py:472-474 | on the full path every (source, target) pair's stack feeds exactly the reduction of its target |
| Dispatch.CrossStackKeysFromSource | model.py:391-401 | in every cross stack, keys and values come from the encoded source modality, and every layer's query is its context input on the running target, which starts from the encoded target modality |

## Left out

- Floating-point numerics are not computed. This covers the attention softmax, the 1/√d scaling and the score and value products, GELU, LayerNorm, linear layers, the unimodal sigmoid gates and the multimodal softmax gates, temperature division, log-softmax and the sinusoidal positional values. The encoder records them as uninterpreted `Term` constructors.
- `MaskedKLDivLoss` and `MaskedNLLLoss` are float reductions over library losses.
- `nn.Conv1d`, `CausalConv1d` and the `nn.Embedding` lookup are library primitives. The realtime model differs from the offline one only in this projection, so the two share every modelled member.
- Dropout, `.cuda()` device placement and parameter freezing are omitted: they are stochastic, device or training concerns that leave the discrete core unchanged.
- Shape checks inside torch `view`, `expand_as` and `cat` are represented only by preconditions on tensor shapes, beyond the head-divisibility check, which is modelled.
- Encoder.EncoderForward: the source picks the self path by value comparison twice. The stack tests `x_a.equal(x_b)` on its raw inputs (model.py:193), and every layer tests `inputs_a.equal(inputs_b)` again on the encoded source and the running target (model.py:138). The model drives both choices with one explicit `Kind`, used by `Encoder.Stack`, `Encoder.LayerForward` and `Encoder.Attention`. Distinct inputs that happen to hold equal values take the self path in the source but the cross path here when called with `Cross`. The same holds for a cross-stack layer whose encoded source happens to equal its running target.
- Speakers.SpeakerIndices: requires a speaker count of 2 or 9. For any other count the constructor leaves the padding index unbound and fails before `forward` can run.
- Speakers.SpeakerIndices: requires every true length to lie in 0..length and at most one length per dialogue. Other values make the slice assignment or the `ones` call raise in torch instead of producing indices.
- Speakers.ArgMax: ties resolve to the first maximal index. This is the documented torch behaviour; the source does not depend on it for one-hot rows.
- `origin_spk_idx` aliases `spk_idx`, and the source reads only its row length, so the model keeps one array.
- The unused nested `shape`/`unshape` helpers in `MultiHeadedAttention.forward` compute the same remapping as the inline split and merge modelled by `Heads.SplitHeads` and `Heads.MergeHeads`.
